/** The history trimmer of the agent entity: old assistant rounds are cut so that the
    request stays within the model's context. */
module History {
  import opened Wrappers
  import opened Wire

  /** The number of assistant messages. */
  function AssistantCount(ms: seq<WireMessage>): (r: nat)
    ensures r <= |ms|
    ensures r > 0 ==> ms != []
  {
    if ms == [] then 0 else (if HasRole(ms[0], "assistant") then 1 else 0) + AssistantCount(ms[1..])
  }

  /** Python's `ms[start:]`, including a negative start, which counts from the end and
      is clamped at the front. */
  function SliceFrom(ms: seq<WireMessage>, start: int): (r: seq<WireMessage>)
    ensures start >= 0 ==> r == ms[if start <= |ms| then start else |ms|..]
    ensures start < 0 ==> r == ms[if |ms| + start >= 0 then |ms| + start else 0..]
  {
    if start >= 0 then ms[if start <= |ms| then start else |ms|..]
    else ms[if |ms| + start >= 0 then |ms| + start else 0..]
  }

  /** `del messages[1]` when the message after the first one is a tool result. */
  function DropLeadingTool(ms: seq<WireMessage>): (r: seq<WireMessage>)
    ensures |ms| > 1 && HasRole(ms[1], "tool") ==> |r| == |ms| - 1 && r[0] == ms[0] && r[1..] == ms[2..]
    ensures !(|ms| > 1 && HasRole(ms[1], "tool")) ==> r == ms
  {
    if |ms| > 1 && HasRole(ms[1], "tool") then [ms[0]] + ms[2..] else ms
  }

  /** Whether trimming is triggered: one assistant message is the turn in progress, and
      the earlier ones are counted against `maxRounds`. */
  predicate Triggered(messages: seq<WireMessage>, maxRounds: int) {
    maxRounds >= 1 && AssistantCount(messages) - 1 >= maxRounds
  }

  /** The trimmer as written: the first message, then `messages[drop:]` with
      `drop = len - (2 * maxRounds + 1)`, where a `drop` of zero or below is taken as a
      Python slice start. */
  function TrimHistory(messages: seq<WireMessage>, maxRounds: int): (r: seq<WireMessage>)
    ensures !Triggered(messages, maxRounds) ==> r == messages
    ensures Triggered(messages, maxRounds) ==> |messages| >= 2 && r != [] && r[0] == messages[0]
  {
    if !Triggered(messages, maxRounds) then messages
    else
      var keep := 2 * maxRounds + 1;
      var drop := |messages| - keep;
      DropLeadingTool([messages[0]] + SliceFrom(messages, drop))
  }

  /** When the history is long enough for the cut to start after the first message, the
      trimmer as written keeps the first message and the last `2 * maxRounds + 1`
      messages, less a tool result at the head of that window. */
  lemma TrimKeepsWindow(messages: seq<WireMessage>, maxRounds: int)
    requires Triggered(messages, maxRounds) && |messages| >= 2 * maxRounds + 2
    ensures var w := messages[|messages| - (2 * maxRounds + 1)..];
      TrimHistory(messages, maxRounds) == [messages[0]] + (if HasRole(w[0], "tool") then w[1..] else w)
  {
    var w := messages[|messages| - (2 * maxRounds + 1)..];
    var s := [messages[0]] + w;
    assert SliceFrom(messages, |messages| - (2 * maxRounds + 1)) == w;
    assert s[1] == w[0] && s[2..] == w[1..];
  }

  /** The trimmer as evidently intended: the slice never starts before the second
      message, so nothing is duplicated and a short history is not cut. */
  function TrimHistoryIntended(messages: seq<WireMessage>, maxRounds: int): (r: seq<WireMessage>)
    ensures !Triggered(messages, maxRounds) ==> r == messages
  {
    if !Triggered(messages, maxRounds) then messages
    else
      var drop := |messages| - (2 * maxRounds + 1);
      DropLeadingTool([messages[0]] + messages[if drop >= 1 then drop else 1..])
  }

  predicate IsSuffix(a: seq<WireMessage>, b: seq<WireMessage>) {
    |a| <= |b| && b[|b| - |a|..] == a
  }

  lemma SuffixOfSuffix(a: seq<WireMessage>, b: seq<WireMessage>, c: seq<WireMessage>)
    requires IsSuffix(a, b) && IsSuffix(b, c)
    ensures IsSuffix(a, c)
  {
    assert c[|c| - |a|..] == c[|c| - |b|..][|b| - |a|..];
  }

  lemma DropLeadingToolKeepsTail(m0: WireMessage, t: seq<WireMessage>, k: nat)
    requires k < |t|
    ensures var r := DropLeadingTool([m0] + t);
      && r != [] && r[0] == m0 && IsSuffix(r[1..], t) && IsSuffix(t[|t| - k..], r)
  {
    var s := [m0] + t;
    assert s[1..] == t;
    var r := DropLeadingTool(s);
    if |s| > 1 && HasRole(s[1], "tool") {
      assert r[1..] == t[1..];
      assert t[|t| - |t[1..]|..] == t[1..];
      assert r[|r| - k..] == t[|t| - k..];
    } else {
      assert t[|t| - |t|..] == t;
      assert r[|r| - k..] == t[|t| - k..];
    }
  }

  /** The corrected trimmer keeps the first message, keeps a tail of the rest and never
      grows the history. When it trims, it keeps at most `2 * maxRounds + 1` messages
      after the first one and always keeps the most recent `2 * maxRounds` messages
      (all but the first two, in a shorter history). */
  lemma TrimIntendedKeepsRecent(messages: seq<WireMessage>, maxRounds: int)
    ensures var r := TrimHistoryIntended(messages, maxRounds);
      && |r| <= |messages|
      && (messages != [] ==> r != [] && r[0] == messages[0] && IsSuffix(r[1..], messages[1..]))
      && (Triggered(messages, maxRounds) ==>
            && |r| <= 2 * maxRounds + 2
            && var k := if |messages| - 2 <= 2 * maxRounds then |messages| - 2 else 2 * maxRounds;
               IsSuffix(messages[|messages| - k..], r))
  {
    var r := TrimHistoryIntended(messages, maxRounds);
    if messages != [] && !Triggered(messages, maxRounds) {
      assert r[1..] == messages[1..];
      assert messages[1..][|messages[1..]| - |messages[1..]|..] == messages[1..];
    }
    if Triggered(messages, maxRounds) {
      TrimIntendedTriggered(messages, maxRounds);
    }
  }

  /** Where the corrected trimmer starts its slice when trimming is triggered. */
  function IntendedStart(messages: seq<WireMessage>, maxRounds: int): int {
    var drop := |messages| - (2 * maxRounds + 1);
    if drop >= 1 then drop else 1
  }

  lemma TrimIntendedUnfold(messages: seq<WireMessage>, maxRounds: int)
    requires Triggered(messages, maxRounds)
    ensures 1 <= IntendedStart(messages, maxRounds) < |messages|
    ensures TrimHistoryIntended(messages, maxRounds)
         == DropLeadingTool([messages[0]] + messages[IntendedStart(messages, maxRounds)..])
  {
  }

  /** The triggered case of `TrimIntendedKeepsRecent`. */
  lemma TrimIntendedTriggered(messages: seq<WireMessage>, maxRounds: int)
    requires Triggered(messages, maxRounds)
    ensures var r := TrimHistoryIntended(messages, maxRounds);
      && |r| <= |messages| && |r| <= 2 * maxRounds + 2
      && r != [] && r[0] == messages[0] && IsSuffix(r[1..], messages[1..])
      && var k := if |messages| - 2 <= 2 * maxRounds then |messages| - 2 else 2 * maxRounds;
         IsSuffix(messages[|messages| - k..], r)
  {
    var start := IntendedStart(messages, maxRounds);
    var k := if |messages| - 2 <= 2 * maxRounds then |messages| - 2 else 2 * maxRounds;
    TrimIntendedUnfold(messages, maxRounds);
    var r := TrimHistoryIntended(messages, maxRounds);
    DropLeadingToolKeepsTail(messages[0], messages[start..], k);
    SuffixThroughTail(messages, start, k, r);
  }

  /** A list that ends like `messages[start..]`, and whose tail is a suffix of it, has
      its tail a suffix of `messages[1..]` and ends with the last `k` messages. */
  lemma SuffixThroughTail(messages: seq<WireMessage>, start: nat, k: nat, r: seq<WireMessage>)
    requires 1 <= start < |messages| && k < |messages| - start && r != []
    requires IsSuffix(r[1..], messages[start..])
    requires IsSuffix(messages[start..][|messages| - start - k..], r)
    ensures IsSuffix(r[1..], messages[1..])
    ensures IsSuffix(messages[|messages| - k..], r)
  {
    TailIsSuffix(messages, start);
    SuffixOfSuffix(r[1..], messages[start..], messages[1..]);
    LastOfTail(messages, start, k);
  }

  lemma TailIsSuffix(messages: seq<WireMessage>, start: nat)
    requires 1 <= start <= |messages|
    ensures IsSuffix(messages[start..], messages[1..])
  {
    assert messages[1..][|messages[1..]| - |messages[start..]|..] == messages[start..];
  }

  lemma LastOfTail(messages: seq<WireMessage>, start: nat, k: nat)
    requires start <= |messages| && k <= |messages| - start
    ensures messages[start..][|messages[start..]| - k..] == messages[|messages| - k..]
  {
  }

  /** Where the history is long enough for the cut to start after the first message,
      the trimmer as written and the corrected one agree. */
  lemma TrimAgreesWhenLong(messages: seq<WireMessage>, maxRounds: int)
    requires |messages| >= 2 * maxRounds + 2
    ensures TrimHistory(messages, maxRounds) == TrimHistoryIntended(messages, maxRounds)
  {
  }

  /** As written: a triggered trim of a history of exactly `2 * maxRounds + 1` messages
      computes `drop == 0`, so the result repeats the first message and is one longer
      than the input. */
  lemma TrimDuplicatesFirst(messages: seq<WireMessage>, maxRounds: int)
    requires Triggered(messages, maxRounds) && |messages| == 2 * maxRounds + 1
    requires !HasRole(messages[0], "tool")
    ensures var r := TrimHistory(messages, maxRounds);
      |r| == |messages| + 1 && r[0] == messages[0] && r[1] == messages[0] && r[1..] == messages
  {
    var s := [messages[0]] + messages[0..];
    assert s[1..] == messages;
  }

  /** As written: a triggered trim of a history shorter than `2 * maxRounds + 1`
      computes a negative `drop`, which Python reads as counting from the end, so the
      middle of a history that is within budget is cut away. */
  lemma TrimCutsShortHistory(messages: seq<WireMessage>, maxRounds: int)
    requires Triggered(messages, maxRounds) && |messages| < 2 * maxRounds + 1
    ensures var start := if 2 * |messages| - (2 * maxRounds + 1) >= 0 then 2 * |messages| - (2 * maxRounds + 1) else 0;
      TrimHistory(messages, maxRounds) == DropLeadingTool([messages[0]] + messages[start..])
  {
    var drop := |messages| - (2 * maxRounds + 1);
    assert drop < 0 && |messages| + drop == 2 * |messages| - (2 * maxRounds + 1);
    assert TrimHistory(messages, maxRounds) == DropLeadingTool([messages[0]] + SliceFrom(messages, drop));
  }

  /** A concrete history showing the cut: with `maxRounds == 2`, a system prompt and
      three assistant replies lose the two older replies. */
  lemma TrimCutsShortHistoryExample()
    ensures
      var sys := WireMessage(Some("system"), Str("prompt"), None, None);
      var a := WireMessage(Some("assistant"), Str("reply"), None, None);
      TrimHistory([sys, a, a, a], 2) == [sys, a]
  {
    var sys := WireMessage(Some("system"), Str("prompt"), None, None);
    var a := WireMessage(Some("assistant"), Str("reply"), None, None);
    assert AssistantCount([sys, a, a, a]) == 3 by {
      assert [sys, a, a, a][1..] == [a, a, a];
      assert [a, a, a][1..] == [a, a];
      assert [a, a][1..] == [a];
      assert [a][1..] == [];
    }
    assert [sys, a, a, a][3..] == [a];
  }

  /** A concrete history showing the duplication: with `maxRounds == 1`, a system
      prompt and two assistant replies come back with the system prompt twice. */
  lemma TrimDuplicatesFirstExample()
    ensures
      var sys := WireMessage(Some("system"), Str("prompt"), None, None);
      var a := WireMessage(Some("assistant"), Str("reply"), None, None);
      TrimHistory([sys, a, a], 1) == [sys, sys, a, a]
  {
    var sys := WireMessage(Some("system"), Str("prompt"), None, None);
    var a := WireMessage(Some("assistant"), Str("reply"), None, None);
    assert AssistantCount([sys, a, a]) == 2 by {
      assert [sys, a, a][1..] == [a, a];
      assert [a, a][1..] == [a];
      assert [a][1..] == [];
    }
    TrimDuplicatesFirst([sys, a, a], 1);
  }
}
