/** The module-level table `conversation_histories` and the `/gemini` handler
    that updates it in place. The table maps a channel to a list object; the
    handler reads that object back, changes it, and stores it again, so the
    aliasing of the source is kept: a stored list is changed where it lies. */
module Store {
  import opened PyText
  import opened TurnHistory
  import opened Session

  /** A Python list of rendered turns. */
  class TurnList {
    var entries: seq<string>

    /** `[]` */
    constructor ()
      ensures entries == []
    {
      entries := [];
    }

    /** `list.append(x)` */
    method Append(x: string)
      modifies this
      ensures entries == old(entries) + [x]
    {
      entries := entries + [x];
    }

    /** `list.pop(0)`: removes and returns the oldest entry. */
    method PopFront() returns (x: string)
      requires entries != []
      modifies this
      ensures x == old(entries)[0]
      ensures entries == old(entries)[1..]
    {
      x := entries[0];
      entries := entries[1..];
    }

    /** `list.append(x)` followed by `if len(list) > 15: list.pop(0)`, the
        pair of statements the handler runs after each new turn. */
    method AppendCapped(x: string)
      modifies this
      ensures entries == CapAppend(old(entries), x)
    {
      Append(x);
      if |entries| > MaxTurns {
        var _ := PopFront();
      }
    }
  }

  class ConversationStore {
    /** `conversation_histories` */
    var histories: map<ChannelId, TurnList>

    /** No two channels share one list object: each list is created for one
        channel and stored only under it. */
    ghost predicate Unshared()
      reads this
    {
      forall a, b :: a in histories && b in histories && a != b ==> histories[a] != histories[b]
    }

    /** The table as values: each channel's current turns. */
    ghost function Contents(): Table
      reads this, histories.Values
    {
      map k | k in histories :: histories[k].entries
    }

    /** `conversation_histories = {}` */
    constructor ()
      ensures histories == map[]
      ensures Unshared()
      ensures Contents() == map[]
      ensures Bounded(Contents())
    {
      histories := map[];
    }

    /** `conversation_histories.pop(channel, None)`: drops the channel's
        entry, present or not. */
    method Forget(channel: ChannelId)
      requires Unshared()
      modifies this
      ensures histories == old(histories) - {channel}
      ensures Unshared()
      ensures Contents() == old(Contents()) - {channel}
    {
      histories := histories - {channel};
    }

    /** `history.append(x)` and the eviction on `history`, the channel's
        stored list or a list not yet stored. A stored list is changed in
        place, so the table shows the change at once. */
    method Extend(channel: ChannelId, history: TurnList, x: string)
      requires Unshared()
      requires channel in histories ==> histories[channel] == history
      requires channel !in histories ==> history !in histories.Values
      modifies history
      ensures history.entries == CapAppend(old(history.entries), x)
      ensures Contents() == if channel in histories then old(Contents())[channel := history.entries] else old(Contents())
    {
      history.AppendCapped(x);
      assert forall k :: k in histories && k != channel ==> histories[k] != history;
    }

    /** `conversation_histories[channel] = history` */
    method Put(channel: ChannelId, history: TurnList)
      requires Unshared()
      requires channel in histories ==> histories[channel] == history
      requires channel !in histories ==> history !in histories.Values
      modifies this
      ensures Unshared()
      ensures histories == old(histories)[channel := history]
      ensures Contents() == old(Contents())[channel := history.entries]
    {
      histories := histories[channel := history];
    }

    /** `gemini_command` for a request on `channel` with `prompt`; `backend`
        stands for the model call and the reading of its response text. */
    method Handle(channel: ChannelId, prompt: string, backend: string -> Reply) returns (outcome: Outcome)
      requires Unshared()
      modifies this, histories.Values
      ensures Unshared()
      ensures forall l :: l in histories.Values ==> l in old(histories.Values) || fresh(l)
      ensures Transition(Contents(), outcome) == Step(old(Contents()), channel, prompt, backend)
      ensures old(Bounded(Contents())) ==> Bounded(Contents())
    {
      ghost var before := Contents();
      if Bounded(before) {
        StepKeepsBound(before, channel, prompt, backend);
      }
      if IsReset(prompt) {
        Forget(channel);
        outcome := ResetDone;
        return;
      }
      if prompt == "" {
        outcome := Rejected;
        return;
      }
      outcome := Ask(channel, prompt, backend);
    }

    /** The query path of `gemini_command`, taken once the prompt is neither
        the reset keyword nor empty. */
    method Ask(channel: ChannelId, prompt: string, backend: string -> Reply) returns (outcome: Outcome)
      requires Unshared()
      modifies this, histories.Values
      ensures Unshared()
      ensures forall l :: l in histories.Values ==> l in old(histories.Values) || fresh(l)
      ensures Transition(Contents(), outcome) == Query(old(Contents()), channel, prompt, backend)
    {
      ghost var before := Contents();
      var history: TurnList;
      if channel in histories {
        history := histories[channel];
      } else {
        history := new TurnList();
      }
      assert history.entries == Lookup(before, channel);
      Extend(channel, history, UserTurn(prompt));
      ghost var h1 := history.entries;
      var conversationPrompt := RenderPrompt(history.entries);
      var reply := backend(conversationPrompt);
      match reply
      case Err(e) =>
        outcome := Failed(conversationPrompt, e);
      case Ok(text) =>
        var generated := Strip(text);
        ghost var mid := Contents();
        Extend(channel, history, AssistantTurn(generated));
        ghost var h2 := history.entries;
        assert h2 == CapAppend(h1, AssistantTurn(generated));
        Put(channel, history);
        assert Contents() == mid[channel := h2];
        assert mid[channel := h2] == before[channel := h2];
        outcome := Answered(conversationPrompt, generated);
    }
  }
}
