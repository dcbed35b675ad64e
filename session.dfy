/** What one `/gemini` request does to the table of channel histories, as a
    function of the table before it, the channel, the prompt and the model
    backend. The store in `Store` is proved to behave exactly like `Step`. */
module Session {
  import opened PyText
  import opened TurnHistory

  /** Discord's `interaction.channel_id`. */
  type ChannelId = int

  /** `conversation_histories`: channel id to the rendered turns kept for it. */
  type Table = map<ChannelId, seq<string>>

  /** What the model backend gives for a prompt: the response text, or the
      text of the exception raised while producing it. */
  datatype Reply = Ok(text: string) | Err(message: string)

  /** How a request ends. `sent` is the prompt handed to the backend; the two
      outcomes without one made no model call. */
  datatype Outcome =
    | ResetDone
    | Rejected
    | Answered(sent: string, text: string)
    | Failed(sent: string, error: string)

  datatype Transition = Transition(table: Table, outcome: Outcome)

  /** Every history in the table is within the cap. */
  predicate Bounded(t: Table)
  {
    forall k :: k in t ==> |t[k]| <= MaxTurns
  }

  /** `prompt.strip().lower() == "reset"`. */
  predicate IsReset(prompt: string)
  {
    LowerEquals(Strip(prompt), "reset")
  }

  /** `f"User: {prompt}"` */
  function UserTurn(prompt: string): string
  {
    "User: " + prompt
  }

  /** `f"Assistant: {generated_text}"` */
  function AssistantTurn(text: string): string
  {
    "Assistant: " + text
  }

  /** The cue appended after the joined history. */
  const Cue: string := "\nAssistant:"

  /** `"\n".join(history) + "\nAssistant:"` */
  function RenderPrompt(history: seq<string>): string
  {
    Join(history) + Cue
  }

  /** `conversation_histories.get(channel_id, [])` */
  function Lookup(t: Table, c: ChannelId): seq<string>
  {
    if c in t then t[c] else []
  }

  /** The query path of a request: the user turn is added to the channel's
      list and evicted from, the prompt is rendered and sent. A stored list is
      changed in place, so the user turn stays even when the backend fails; a
      channel without an entry gets one only when the backend answers. */
  function Query(t: Table, c: ChannelId, prompt: string, backend: string -> Reply): (r: Transition)
    ensures forall k :: k != c ==> (k in r.table <==> k in t)
    ensures forall k :: k != c && k in t ==> r.table[k] == t[k]
  {
    var history := CapAppend(Lookup(t, c), UserTurn(prompt));
    var sent := RenderPrompt(history);
    match backend(sent)
    case Ok(text) =>
      var generated := Strip(text);
      Transition(t[c := CapAppend(history, AssistantTurn(generated))], Answered(sent, generated))
    case Err(e) =>
      Transition(if c in t then t[c := history] else t, Failed(sent, e))
  }

  /** One request on channel `c`: reset removes the channel's entry, an empty
      prompt is refused, anything else is a query. No other channel changes. */
  function Step(t: Table, c: ChannelId, prompt: string, backend: string -> Reply): (r: Transition)
    ensures forall k :: k != c ==> (k in r.table <==> k in t)
    ensures forall k :: k != c && k in t ==> r.table[k] == t[k]
  {
    if IsReset(prompt) then Transition(t - {c}, ResetDone)
    else if prompt == "" then Transition(t, Rejected)
    else Query(t, c, prompt, backend)
  }

  /** No request lets a history grow past the cap. */
  lemma StepKeepsBound(t: Table, c: ChannelId, prompt: string, backend: string -> Reply)
    requires Bounded(t)
    ensures Bounded(Step(t, c, prompt, backend).table)
  {
    if !IsReset(prompt) && prompt != "" {
      var h1 := CapAppend(Lookup(t, c), UserTurn(prompt));
      match backend(RenderPrompt(h1))
      case Ok(text) =>
        var h2 := CapAppend(h1, AssistantTurn(Strip(text)));
        assert Step(t, c, prompt, backend).table == t[c := h2];
      case Err(_) =>
    }
  }

  /** One request in a sequence: its channel, its prompt, and the backend
      that answers it. Each request has its own backend, so the same prompt
      can get different replies at different times. */
  datatype Request = Request(channel: ChannelId, prompt: string, backend: string -> Reply)

  /** The table left by a sequence of requests, handled in order. */
  function Run(t: Table, requests: seq<Request>): Table
    decreases |requests|
  {
    if requests == [] then t
    else
      var q := requests[0];
      Run(Step(t, q.channel, q.prompt, q.backend).table, requests[1..])
  }

  /** Starting from the empty table, or any bounded one, every history stays
      within the cap however many requests follow and whatever each backend
      answers. */
  lemma {:induction false} RunKeepsBound(t: Table, requests: seq<Request>)
    requires Bounded(t)
    ensures Bounded(Run(t, requests))
    decreases |requests|
  {
    if requests != [] {
      var q := requests[0];
      StepKeepsBound(t, q.channel, q.prompt, q.backend);
      RunKeepsBound(Step(t, q.channel, q.prompt, q.backend).table, requests[1..]);
    }
  }

  /** Reset removes the channel's entry, adds nothing and calls no model. */
  lemma ResetClears(t: Table, c: ChannelId, prompt: string, backend: string -> Reply)
    requires IsReset(prompt)
    ensures Step(t, c, prompt, backend) == Transition(t - {c}, ResetDone)
    ensures c !in Step(t, c, prompt, backend).table
    ensures c !in t ==> Step(t, c, prompt, backend).table == t
  {
  }

  /** A second reset of the same channel changes nothing. */
  lemma ResetIdempotent(t: Table, c: ChannelId, p1: string, p2: string, b1: string -> Reply, b2: string -> Reply)
    requires IsReset(p1) && IsReset(p2)
    ensures var once := Step(t, c, p1, b1).table;
      Step(once, c, p2, b2).table == once
  {
  }

  /** The reset keyword itself resets. */
  lemma ResetKeyword()
    ensures IsReset("reset")
  {
    StripRecoversCore("", "reset", "", Whitespace);
    assert "" + "reset" + "" == "reset";
  }

  /** The keyword is matched after trimming whitespace and ignoring case. */
  lemma ResetKeywordTrimmedAnyCase()
    ensures IsReset("  ReSeT\n")
  {
    StripRecoversCore("  ", "ReSeT", "\n", Whitespace);
    assert "  " + "ReSeT" + "\n" == "  ReSeT\n";
  }

  /** Whitespace inside the keyword, or more letters, is not a reset. */
  lemma NotResetKeyword()
    ensures !IsReset("re set")
    ensures !IsReset("resets")
  {
    StripRecoversCore("", "re set", "", Whitespace);
    assert "" + "re set" + "" == "re set";
    StripRecoversCore("", "resets", "", Whitespace);
    assert "" + "resets" + "" == "resets";
  }

  /** The empty prompt is refused and the table is left as it was. */
  lemma EmptyPromptRejected(t: Table, c: ChannelId, backend: string -> Reply)
    ensures Step(t, c, "", backend) == Transition(t, Rejected)
  {
    StripRecoversCore("", "", "", Whitespace);
  }

  /** A prompt of whitespace only is not refused: the emptiness test is on the
      raw prompt, so it goes to the backend. */
  lemma BlankPromptIsQueried(t: Table, c: ChannelId, prompt: string, backend: string -> Reply)
    requires prompt != [] && AllIn(prompt, Whitespace)
    ensures Step(t, c, prompt, backend).outcome.Answered? || Step(t, c, prompt, backend).outcome.Failed?
  {
    StripRecoversCore(prompt, "", "", Whitespace);
    assert prompt + "" + "" == prompt;
  }

  /** On an answer the channel's history gains the user turn and then the
      assistant turn, each append followed by the eviction, and is stored. */
  lemma QuerySuccess(t: Table, c: ChannelId, prompt: string, backend: string -> Reply)
    requires !IsReset(prompt) && prompt != ""
    requires
      var sent := RenderPrompt(CapAppend(Lookup(t, c), UserTurn(prompt)));
      backend(sent).Ok?
    ensures
      var sent := RenderPrompt(CapAppend(Lookup(t, c), UserTurn(prompt)));
      var generated := Strip(backend(sent).text);
      var r := Step(t, c, prompt, backend);
      && r.outcome == Answered(sent, generated)
      && c in r.table
      && r.table[c] == AppendAll(Lookup(t, c), [UserTurn(prompt), AssistantTurn(generated)])
      && (|Lookup(t, c)| <= MaxTurns ==>
            r.table[c] == LastN(Lookup(t, c) + [UserTurn(prompt), AssistantTurn(generated)], MaxTurns))
  {
    var h := Lookup(t, c);
    var sent := RenderPrompt(CapAppend(h, UserTurn(prompt)));
    var generated := Strip(backend(sent).text);
    var xs := [UserTurn(prompt), AssistantTurn(generated)];
    assert AppendAll(h, xs) == AppendAll(CapAppend(h, xs[0]), xs[1..]);
    assert xs[1..][1..] == [];
    if |h| <= MaxTurns {
      AppendAllKeepsLast(h, xs);
    }
  }

  /** On a backend failure no assistant turn is added. A channel that had an
      entry keeps the user turn (its list was changed in place); a channel that
      had none still has none. */
  lemma QueryFailure(t: Table, c: ChannelId, prompt: string, backend: string -> Reply)
    requires !IsReset(prompt) && prompt != ""
    requires
      var sent := RenderPrompt(CapAppend(Lookup(t, c), UserTurn(prompt)));
      backend(sent).Err?
    ensures
      var sent := RenderPrompt(CapAppend(Lookup(t, c), UserTurn(prompt)));
      var r := Step(t, c, prompt, backend);
      && r.outcome == Failed(sent, backend(sent).message)
      && (c !in t ==> r.table == t)
      && (c in t ==> c in r.table && r.table[c] == CapAppend(t[c], UserTurn(prompt)))
  {
  }

  /** The prompt sent is the kept turns and the bare cue `Assistant:` joined
      as lines, whatever the turns contain. */
  lemma PromptIsJoin(history: seq<string>)
    requires history != []
    ensures RenderPrompt(history) == Join(history + ["Assistant:"])
  {
    JoinSnoc(history, "Assistant:");
    assert Join(history) + "\n" + "Assistant:" == RenderPrompt(history);
  }

  /** The prompt sent splits back into the kept turns followed by the cue,
      whenever no turn contains a newline of its own. */
  lemma PromptLines(history: seq<string>)
    requires history != []
    requires forall k :: 0 <= k < |history| ==> '\n' !in history[k]
    ensures SplitLines(RenderPrompt(history)) == history + ["Assistant:"]
  {
    PromptIsJoin(history);
    var lines := history + ["Assistant:"];
    forall k | 0 <= k < |lines| ensures '\n' !in lines[k] {
      if k == |history| { assert lines[k] == "Assistant:"; }
    }
    SplitJoin(lines);
  }

  /** The first request on a channel without history, prompt `"hi"`, sends
      `"User: hi\nAssistant:"`. */
  lemma FirstPromptSent(t: Table, c: ChannelId, backend: string -> Reply)
    requires c !in t
    ensures Step(t, c, "hi", backend).outcome.sent == "User: hi\nAssistant:"
  {
    StripRecoversCore("", "hi", "", Whitespace);
    assert "" + "hi" + "" == "hi";
    assert !IsReset("hi");
    assert Step(t, c, "hi", backend) == Query(t, c, "hi", backend);
    var history := CapAppend(Lookup(t, c), UserTurn("hi"));
    assert UserTurn("hi") == "User: hi";
    assert history == ["User: hi"];
    assert RenderPrompt(history) == "User: hi" + "\nAssistant:";
  }
}
