/** Cutting histories at turn boundaries: the boundary search, the trim that fits a
    context window, and emergency compression. */
module Turns {
  import opened Messages
  import opened Seqs
  import opened Sanitize
  import opened Text

  predicate IsUser(h: seq<Message>, k: int) {
    0 <= k < |h| && h[k].role == User
  }

  /** The first user message at or after `from`, or the length of `h`. */
  function NextUser(h: seq<Message>, from: nat): (n: nat)
    requires from <= |h|
    ensures from <= n <= |h|
    ensures n < |h| ==> IsUser(h, n)
    ensures forall k :: from <= k < n ==> !IsUser(h, k)
    decreases |h| - from
  {
    if from == |h| || h[from].role == User then from else NextUser(h, from + 1)
  }

  ghost predicate HasUser(h: seq<Message>) {
    exists k :: IsUser(h, k)
  }

  /** `starts` lists exactly the user messages of `h`, in order. */
  ghost predicate ListsTurns(h: seq<Message>, starts: seq<nat>) {
    && (forall i :: 0 <= i < |starts| ==> IsUser(h, starts[i]))
    && (forall i, j :: 0 <= i < j < |starts| ==> starts[i] < starts[j])
    && (forall k :: IsUser(h, k) ==> k in starts)
  }

  /** The user messages among the first `n`. */
  function TurnStarts(h: seq<Message>, n: nat): (starts: seq<nat>)
    requires n <= |h|
    ensures forall i :: 0 <= i < |starts| ==> starts[i] < n
  {
    if n == 0 then []
    else TurnStarts(h, n - 1) + (if h[n - 1].role == User then [n - 1] else [])
  }

  lemma {:induction false} TurnStartsList(h: seq<Message>, n: nat)
    requires n <= |h|
    ensures ListsTurns(h[..n], TurnStarts(h, n))
    ensures n == |h| ==> ListsTurns(h, TurnStarts(h, n))
  {
    if n > 0 {
      TurnStartsList(h, n - 1);
      TurnStartsStep(h, n);
    }
    assert n == |h| ==> h[..n] == h;
  }

  lemma TurnStartsStep(h: seq<Message>, n: nat)
    requires 0 < n <= |h| && ListsTurns(h[..n - 1], TurnStarts(h, n - 1))
    ensures ListsTurns(h[..n], TurnStarts(h, n))
  {
    ListsOneMore(h[..n], h[..n - 1], TurnStarts(h, n - 1), TurnStarts(h, n));
  }

  lemma ListsOneMore(h: seq<Message>, before: seq<Message>, starts: seq<nat>, starts': seq<nat>)
    requires h != [] && before == h[..|h| - 1] && ListsTurns(before, starts)
    requires starts' == starts + if h[|h| - 1].role == User then [|h| - 1] else []
    ensures ListsTurns(h, starts')
  {
    forall i | 0 <= i < |starts| ensures IsUser(h, starts[i]) && starts[i] < |before| {
      assert IsUser(before, starts[i]);
    }
    forall k | IsUser(h, k) ensures k in starts' {
      assert k < |before| ==> IsUser(before, k);
    }
  }

  method ParseTurnBoundaries(h: seq<Message>) returns (starts: seq<nat>)
    ensures starts == TurnStarts(h, |h|)
    ensures ListsTurns(h, starts)
  {
    TurnStartsList(h, |h|);
    starts := [];
    for i := 0 to |h|
      invariant starts == TurnStarts(h, i)
    {
      if h[i].role == User {
        starts := starts + [i];
      }
    }
  }

  // ----- The nearest safe boundary

  /** `r` is the cut for `target`: the last user message at or before it (but not
      index 0), else the first one after it, else 0 when the history is a single
      turn, and `target` itself when there is no user message at all. */
  ghost predicate IsSafeCut(h: seq<Message>, target: int, r: int) {
    if h == [] || target <= 0 then r == 0
    else if target >= |h| then r == |h|
    else if !HasUser(h) then r == target
    else
      || (0 < r <= target && IsUser(h, r) && forall k :: r < k <= target ==> !IsUser(h, k))
      || (target < r && IsUser(h, r) && forall k :: 0 < k < r ==> !IsUser(h, k))
      || (r == 0 && forall k :: 0 < k ==> !IsUser(h, k))
  }

  method FindSafeBoundary(h: seq<Message>, target: int) returns (r: int)
    ensures IsSafeCut(h, target, r)
  {
    if |h| == 0 || target <= 0 {
      return 0;
    }
    if target >= |h| {
      return |h|;
    }
    var turns := ParseTurnBoundaries(h);
    if |turns| == 0 {
      return target;
    }
    assert IsUser(h, turns[0]);
    var backward := LastAtOrBefore(turns, target);
    if backward > 0 {
      assert IsUser(h, backward);
      return backward;
    }
    assert forall k :: IsUser(h, k) && k <= target ==> k == 0;
    r := FirstAfter(turns, target);
    assert r > 0 ==> IsUser(h, r);
  }

  method LastAtOrBefore(turns: seq<nat>, target: int) returns (backward: int)
    requires forall i, j :: 0 <= i < j < |turns| ==> turns[i] < turns[j]
    ensures backward == -1 || (backward in turns && backward <= target)
    ensures forall k :: k in turns && k <= target ==> k <= backward
  {
    backward := -1;
    for i := 0 to |turns|
      invariant backward == -1 || (backward in turns && backward <= target)
      invariant forall j :: 0 <= j < i && turns[j] <= target ==> turns[j] <= backward
    {
      if turns[i] <= target {
        backward := turns[i];
      }
    }
  }

  /** The first turn after `target`, or 0. */
  method FirstAfter(turns: seq<nat>, target: int) returns (r: int)
    requires target > 0 && forall i, j :: 0 <= i < j < |turns| ==> turns[i] < turns[j]
    ensures if r == 0 then forall k :: k in turns ==> k <= target
      else r in turns && r > target && forall k :: k in turns && k < r ==> k <= target
  {
    for i := 0 to |turns|
      invariant forall j :: 0 <= j < i ==> turns[j] <= target
    {
      if turns[i] > target {
        return turns[i];
      }
    }
    return 0;
  }

  ghost predicate IsSuffix(a: seq<Message>, b: seq<Message>) {
    |a| <= |b| && b[|b| - |a|..] == a
  }

  lemma {:induction false} NoUserPassOne(acc: seq<Message>, h: seq<Message>)
    requires forall m :: m in acc ==> IsPlain(m) && m.role != User
    requires forall m :: m in h ==> m.role != User
    ensures PassOne(acc, h) == acc + PlainOnes(h)
    decreases |h|
  {
    if h == [] {
      assert acc + [] == acc;
    } else {
      assert acc != [] ==> acc[|acc| - 1] in acc;
      assert Admits(acc, h[0]) == IsPlain(h[0]);
      var add := if IsPlain(h[0]) then [h[0]] else [];
      assert Push(acc, h[0]) == acc + add;
      NoUserPassOne(acc + add, h[1..]);
      Assoc(acc, add, PlainOnes(h[1..]));
    }
  }

  lemma {:induction false} PlainIsNormal(h: seq<Message>, ready: bool)
    requires forall m :: m in h ==> IsPlain(m)
    ensures Normal(h, ready)
    decreases |h|
  {
    if h != [] {
      PlainIsNormal(h[1..], h[0].role == User);
    }
  }

  lemma {:induction false} PlainOnesArePlain(h: seq<Message>)
    ensures forall m :: m in PlainOnes(h) ==> IsPlain(m)
  {
    if h != [] {
      PlainOnesArePlain(h[1..]);
    }
  }

  /** Without user messages no tool-call group survives sanitizing. */
  lemma NoUserNoGroups(h: seq<Message>)
    requires !HasUser(h)
    ensures Sanitized(h) == PlainOnes(h)
  {
    forall m | m in [] + h ensures m.role != User {
      var k :| 0 <= k < |h| && h[k] == m;
      assert !IsUser(h, k);
    }
    NoUserPassOne([], h);
    assert [] + PlainOnes(h) == PlainOnes(h);
    PlainOnesArePlain(h);
    PlainIsNormal(PlainOnes(h), false);
    PassTwoKeepsNormal(PlainOnes(h), false);
  }

  /** A cut at a user message, or anywhere in a history without user messages,
      leaves a suffix of what the provider would have seen: no group is torn. */
  lemma CutTearsNothing(h: seq<Message>, cut: nat)
    requires cut <= |h|
    requires cut == 0 || cut == |h| || IsUser(h, cut) || !HasUser(h)
    ensures IsSuffix(Sanitized(h[cut..]), Sanitized(h))
  {
    if cut == 0 {
      assert h[0..] == h;
    } else if cut == |h| {
    } else if IsUser(h, cut) {
      CutAtUserLeavesSuffix(h, cut);
    } else {
      assert h == h[..cut] + h[cut..];
      PlainOnesAppend(h[..cut], h[cut..]);
      NoUserNoGroups(h);
      forall k ensures !IsUser(h[cut..], k) {
        assert !IsUser(h, cut + k);
      }
      NoUserNoGroups(h[cut..]);
    }
  }

  lemma SafeCutTearsNothing(h: seq<Message>, target: int, r: int)
    requires IsSafeCut(h, target, r)
    ensures 0 <= r <= |h|
    ensures IsSuffix(Sanitized(h[r..]), Sanitized(h))
  {
    CutTearsNothing(h, r);
  }

  // ----- Trimming to the context window

  function Tokens(messages: seq<Message>, cost: Message -> int): int {
    if messages == [] then 0 else cost(messages[0]) + Tokens(messages[1..], cost)
  }

  lemma {:induction false} TokensAppend(messages: seq<Message>, m: Message, cost: Message -> int)
    ensures Tokens(messages + [m], cost) == Tokens(messages, cost) + cost(m)
  {
    if messages == [] {
      assert messages + [m] == [m];
    } else {
      assert (messages + [m])[1..] == messages[1..] + [m];
      TokensAppend(messages[1..], m, cost);
    }
  }

  /** The model's window, the tokens reserved for tool definitions and output, and
      the request builder and token estimate in use. */
  datatype Budget = Budget(
    window: int, toolTokens: int, maxTokens: int,
    build: seq<Message> -> seq<Message>, cost: Message -> int)
  {
    predicate Fits(h: seq<Message>) {
      Tokens(build(h), cost) + toolTokens + maxTokens <= window
    }
  }

  method IsOverContextBudget(b: Budget, messages: seq<Message>) returns (over: bool)
    ensures over == (Tokens(messages, b.cost) + b.toolTokens + b.maxTokens > b.window)
  {
    var msgTokens := 0;
    for i := 0 to |messages|
      invariant msgTokens == Tokens(messages[..i], b.cost)
    {
      TokensAppend(messages[..i], messages[i], b.cost);
      assert messages[..i + 1] == messages[..i] + [messages[i]];
      msgTokens := msgTokens + b.cost(messages[i]);
    }
    assert messages[..|messages|] == messages;
    over := msgTokens + b.toolTokens + b.maxTokens > b.window;
  }

  /** Where the next trim cuts: at the second turn, else at a first turn that is not
      at the start, else at the end. */
  function TrimStart(h: seq<Message>): (n: nat)
    ensures n <= |h| && (h != [] ==> n > 0)
  {
    var first := NextUser(h, 0);
    if first == |h| then |h|
    else
      var second := NextUser(h, first + 1);
      if second < |h| || first == 0 then second else first
  }

  method NextHistoryTrimStart(h: seq<Message>) returns (n: nat)
    ensures n == TrimStart(h)
  {
    if |h| == 0 {
      return 0;
    }
    var turns := ParseTurnBoundaries(h);
    ghost var first := NextUser(h, 0);
    if |turns| == 0 {
      return |h|;
    }
    assert IsUser(h, turns[0]);
    assert first == turns[0];
    ghost var second := NextUser(h, first + 1);
    if |turns| >= 2 {
      assert IsUser(h, turns[1]);
      return turns[1];
    }
    return if turns[0] > 0 then turns[0] else |h|;
  }

  /** The history kept by trimming, and whether it fits. */
  function Trimmed(h: seq<Message>, b: Budget): (seq<Message>, bool)
    decreases |h|
  {
    if b.Fits(h) then (h, true)
    else if h == [] then ([], false)
    else Trimmed(h[TrimStart(h)..], b)
  }

  method TrimHistoryToFitContextWindow(history: seq<Message>, b: Budget)
    returns (kept: seq<Message>, messages: seq<Message>, ok: bool)
    ensures (kept, ok) == Trimmed(history, b)
    ensures messages == b.build(kept)
    ensures ok == b.Fits(kept)
  {
    messages := b.build(history);
    var over := IsOverContextBudget(b, messages);
    if !over {
      return history, messages, true;
    }
    kept := history;
    while |kept| > 0
      invariant Trimmed(kept, b) == Trimmed(history, b)
      invariant !b.Fits(kept)
      invariant messages == b.build(kept)
      decreases |kept|
    {
      var dropUntil := NextHistoryTrimStart(kept);
      assert kept[|kept|..] == [];
      kept := if dropUntil <= 0 || dropUntil >= |kept| then [] else kept[dropUntil..];
      messages := b.build(kept);
      over := IsOverContextBudget(b, messages);
      if !over {
        return kept, messages, true;
      }
    }
    ok := false;
  }

  /** A cut that keeps whole turns. */
  ghost predicate Aligned(h: seq<Message>, k: int) {
    k == 0 || k == |h| || IsUser(h, k)
  }

  /** `kept` is the longest turn-aligned suffix of `h` that fits; failure means that
      not even the empty one does. */
  ghost predicate IsBestTrim(h: seq<Message>, b: Budget, kept: seq<Message>, ok: bool) {
    if ok then
      && IsSuffix(kept, h) && Aligned(h, |h| - |kept|) && b.Fits(kept)
      && forall k :: Aligned(h, k) && b.Fits(h[k..]) ==> |h| - k <= |kept|
    else
      kept == [] && forall k :: Aligned(h, k) ==> !b.Fits(h[k..])
  }

  lemma {:induction false} TrimmedIsBest(h: seq<Message>, b: Budget)
    requires h == [] || IsUser(h, 0)
    ensures var (kept, ok) := Trimmed(h, b); IsBestTrim(h, b, kept, ok)
    decreases |h|
  {
    assert h[0..] == h;
    if !b.Fits(h) && h != [] {
      var next := TrimStart(h);
      var rest := h[next..];
      TrimmedIsBest(rest, b);
      BestTrimExtends(h, next, b);
    }
  }

  /** If nothing aligned lies strictly between 0 and `next` and `h` does not fit, the
      best trim of the rest is the best trim of `h`. */
  lemma BestTrimExtends(h: seq<Message>, next: nat, b: Budget)
    requires 0 < next <= |h| && Aligned(h, next) && !b.Fits(h)
    requires forall k :: 0 < k < next && IsUser(h, k) ==> !b.Fits(h[k..])
    requires var (kept, ok) := Trimmed(h[next..], b); IsBestTrim(h[next..], b, kept, ok)
    ensures var (kept, ok) := Trimmed(h[next..], b); IsBestTrim(h, b, kept, ok)
  {
    var rest := h[next..];
    var (kept, ok) := Trimmed(rest, b);
    assert h[0..] == h;
    forall k | Aligned(h, k) && b.Fits(h[k..])
      ensures k >= next && Aligned(rest, k - next) && b.Fits(rest[k - next..])
    {
      assert k >= next;
      assert rest[k - next..] == h[k..];
      assert IsUser(h, k) ==> IsUser(rest, k - next);
    }
    if ok {
      var j := |rest| - |kept|;
      assert IsUser(rest, j) ==> IsUser(h, next + j);
      assert rest[j..] == h[next + j..];
    }
  }

  /** The trim skips one candidate: a first turn behind leading non-user messages, when
      more turns follow. It is best exactly when that turn was not the answer. */
  ghost predicate SkipsFirstTurn(h: seq<Message>) {
    var first := NextUser(h, 0);
    0 < first < |h| && NextUser(h, first + 1) < |h|
  }

  lemma TrimmedIsBestIff(h: seq<Message>, b: Budget)
    ensures var (kept, ok) := Trimmed(h, b);
      IsBestTrim(h, b, kept, ok) <==>
        (b.Fits(h) || !SkipsFirstTurn(h) || !b.Fits(h[NextUser(h, 0)..]))
  {
    assert h[0..] == h;
    if h == [] || IsUser(h, 0) {
      TrimmedIsBest(h, b);
    } else if !b.Fits(h) {
      TrimmedBehindReply(h, b);
    }
  }

  lemma TrimmedBehindReply(h: seq<Message>, b: Budget)
    requires h != [] && !IsUser(h, 0) && !b.Fits(h)
    ensures var (kept, ok) := Trimmed(h, b);
      IsBestTrim(h, b, kept, ok) <==> (!SkipsFirstTurn(h) || !b.Fits(h[NextUser(h, 0)..]))
  {
    var next, first := TrimStart(h), NextUser(h, 0);
    var rest := h[next..];
    assert rest == [] || IsUser(rest, 0);
    TrimmedIsBest(rest, b);
    if first < |h| && SkipsFirstTurn(h) && b.Fits(h[first..]) {
      assert Aligned(h, first);
      TrimmedIsSuffix(rest, b);
    } else {
      BestTrimExtends(h, next, b);
    }
  }

  lemma {:induction false} TrimmedIsSuffix(h: seq<Message>, b: Budget)
    ensures IsSuffix(Trimmed(h, b).0, h)
    decreases |h|
  {
    if !b.Fits(h) && h != [] {
      TrimmedIsSuffix(h[TrimStart(h)..], b);
    }
  }

  /** The promise fails: a reply in front of two turns. The two turns together fit, but
      only the second is kept. */
  lemma TrimCanSkipFirstTurn()
    ensures var reply, ask := Message(Assistant, "hi", [], [], ""), Message(User, "so?", [], [], "");
      var b := Budget(2, 0, 0, h => h, m => 1);
      var (kept, ok) := Trimmed([reply, ask, ask], b);
      kept == [ask] && ok && b.Fits([ask, ask]) && !IsBestTrim([reply, ask, ask], b, kept, ok)
  {
    var reply, ask := Message(Assistant, "hi", [], [], ""), Message(User, "so?", [], [], "");
    var h, b := [reply, ask, ask], Budget(2, 0, 0, h => h, m => 1);
    assert h[1..] == [ask, ask] && h[2..] == [ask] && [ask, ask][1..] == [ask] && [ask][1..] == [];
    assert Tokens([ask], b.cost) == 1 && Tokens([ask, ask], b.cost) == 2 && Tokens(h, b.cost) == 3;
    assert NextUser(h, 1) == 1 && NextUser(h, 0) == 1 && NextUser(h, 2) == 2;
    assert TrimStart(h) == 2;
    TrimmedIsBestIff(h, b);
  }

  /** The empty history is never the larger request. */
  ghost predicate EmptyIsSmallest(b: Budget) {
    forall h: seq<Message> :: b.Fits(h) ==> b.Fits([])
  }

  lemma {:induction false} TrimFails(h: seq<Message>, b: Budget)
    requires EmptyIsSmallest(b)
    ensures Trimmed(h, b).1 <==> b.Fits([])
    decreases |h|
  {
    if !b.Fits(h) && h != [] {
      TrimFails(h[TrimStart(h)..], b);
    }
  }

  /** Trimming fails exactly when even the empty history is too large, for every history,
      if and only if the builder never makes the empty history the larger request. */
  lemma TrimFailsIffEmptyTooLarge(b: Budget)
    ensures (forall h: seq<Message> :: Trimmed(h, b).1 <==> b.Fits([])) <==> EmptyIsSmallest(b)
  {
    if EmptyIsSmallest(b) {
      forall h: seq<Message> ensures Trimmed(h, b).1 <==> b.Fits([]) {
        TrimFails(h, b);
      }
    } else {
      var h: seq<Message> :| b.Fits(h) && !b.Fits([]);
      assert Trimmed(h, b).1;
    }
  }

  lemma {:induction false} TokensConcat(x: seq<Message>, y: seq<Message>, cost: Message -> int)
    ensures Tokens(x + y, cost) == Tokens(x, cost) + Tokens(y, cost)
  {
    if x == [] {
      assert x + y == y;
    } else {
      assert (x + y)[1..] == x[1..] + y;
      TokensConcat(x[1..], y, cost);
    }
  }

  lemma {:induction false} TokensNonNegative(x: seq<Message>, cost: Message -> int)
    requires forall m :: cost(m) >= 0
    ensures Tokens(x, cost) >= 0
  {
    if x != [] {
      TokensNonNegative(x[1..], cost);
    }
  }

  /** The builder puts the sanitized history between the system prompt and the current
      message, and no message costs less than nothing. */
  ghost predicate BuildsSanitized(b: Budget, before: seq<Message>, after: seq<Message>) {
    (forall h :: b.build(h) == before + Sanitized(h) + after) && forall m :: b.cost(m) >= 0
  }

  /** With such a builder, dropping old turns never makes the request larger. */
  lemma CutNeverCosts(b: Budget, before: seq<Message>, after: seq<Message>, h: seq<Message>, cut: nat)
    requires BuildsSanitized(b, before, after) && cut <= |h|
    requires cut == 0 || cut == |h| || IsUser(h, cut) || !HasUser(h)
    ensures Tokens(b.build(h[cut..]), b.cost) <= Tokens(b.build(h), b.cost)
    ensures b.Fits(h) ==> b.Fits(h[cut..])
  {
    CutTearsNothing(h, cut);
    var all, part := Sanitized(h), Sanitized(h[cut..]);
    var gone := all[..|all| - |part|];
    assert all == gone + part;
    TokensConcat(gone, part, b.cost);
    TokensNonNegative(gone, b.cost);
    TokensConcat(before + all, after, b.cost);
    TokensConcat(before, all, b.cost);
    TokensConcat(before + part, after, b.cost);
    TokensConcat(before, part, b.cost);
  }

  /** So trimming fails exactly when not even the empty history fits. */
  lemma SanitizingTrimFailsIff(b: Budget, before: seq<Message>, after: seq<Message>, h: seq<Message>)
    requires BuildsSanitized(b, before, after)
    ensures Trimmed(h, b).1 <==> b.Fits([])
  {
    forall x: seq<Message> | b.Fits(x) ensures b.Fits([]) {
      CutNeverCosts(b, before, after, x, |x|);
      assert x[|x|..] == [];
    }
    TrimFails(h, b);
  }

  /** Trimming tears no group, whatever the history starts with. */
  lemma {:induction false} TrimmedTearsNothing(h: seq<Message>, b: Budget)
    ensures IsSuffix(Sanitized(Trimmed(h, b).0), Sanitized(h))
    decreases |h|
  {
    if !b.Fits(h) && h != [] {
      var next := TrimStart(h);
      CutTearsNothing(h, next);
      TrimmedTearsNothing(h[next..], b);
    }
  }

  // ----- Emergency compression

  /** What emergency compression keeps: the later half of the turns; with one turn, that
      turn, or only its user message when it is the whole history; without user
      messages, the later half of the messages. */
  function Compressed(h: seq<Message>): seq<Message>
    requires |h| > 2
  {
    var turns := TurnStarts(h, |h|);
    if |turns| >= 2 then h[turns[|turns| / 2]..]
    else if turns == [] then h[|h| / 2..]
    else if turns[0] > 0 then h[turns[0]..]
    else [h[0]]
  }

  /** A stored conversation and its running summary. */
  class Conversation {
    var history: seq<Message>
    var summary: string

    /** Replaces all but about the last four messages by a summary. Whatever happens, the
        provider sees a suffix of what it would have seen. */
    method SummarizeSession(window: nat, llm: Summarizer) returns (cut: nat)
      modifies this
      ensures cut <= |old(history)| && history == old(history)[cut..]
      ensures cut == 0 ==> summary == old(summary)
      ensures cut > 0 ==> |old(history)| > 4 && IsSafeCut(old(history), |old(history)| - 4, cut)
      ensures cut > 0 ==>
        && Picked(old(history)[..cut], window) != []
        && exists s: string ::
          && s != "" && Summarizes(llm, Picked(old(history)[..cut], window), old(summary), s)
          && summary == s + if exists i :: 0 <= i < cut && Oversized(old(history)[i], window) then OMITTED else ""
      ensures IsSuffix(Sanitized(history), Sanitized(old(history)))
    {
      cut := 0;
      if |history| <= 4 {
        return;
      }
      var safeCut := FindSafeBoundary(history, |history| - 4);
      SafeCutTearsNothing(history, |history| - 4, safeCut);
      if safeCut <= 0 {
        return;
      }
      var valid, omitted := PickForSummary(history[..safeCut], window);
      if |valid| == 0 {
        return;
      }
      var final := Summarize(llm, valid, summary);
      if final == "" {
        return;
      }
      assert forall i :: 0 <= i < safeCut ==> history[..safeCut][i] == history[i];
      cut := safeCut;
      summary := if omitted then final + OMITTED else final;
      history := history[cut..];
      assert !omitted ==> summary == final + "";
    }

    method ForceCompression() returns (result: Option<(nat, nat)>)
      modifies this
      ensures |old(history)| <= 2 ==>
        result == None && history == old(history) && summary == old(summary)
      ensures |old(history)| > 2 ==>
        && history == Compressed(old(history))
        && result == Some((|old(history)| - |history|, |history|))
        && summary == (if old(summary) == "" then "" else old(summary) + "\n\n") + Note(|old(history)| - |history|)
    {
      if |history| <= 2 {
        return None;
      }
      var kept := Keep(history);
      CompressedProgress(history);
      var dropped := |history| - |kept|;
      var note := Note(dropped);
      if summary != "" {
        note := summary + "\n\n" + note;
      }
      summary := note;
      history := kept;
      return Some((dropped, |kept|));
    }
  }

  /** A message that goes into a summary for a context window of `window` tokens. */
  predicate Summarizable(m: Message, window: nat) {
    m.role in {User, Assistant} && |m.content| / 2 <= window / 2
  }

  predicate Oversized(m: Message, window: nat) {
    m.role in {User, Assistant} && |m.content| / 2 > window / 2
  }

  const OMITTED := "\n[Note: Some oversized messages were omitted from this summary for efficiency.]"

  /** The messages that go into a summary, in order. */
  function Picked(messages: seq<Message>, window: nat): seq<Message> {
    if messages == [] then []
    else
      var n := |messages| - 1;
      Picked(messages[..n], window) + if Summarizable(messages[n], window) then [messages[n]] else []
  }

  lemma {:induction false} PickedAre(messages: seq<Message>, window: nat)
    ensures forall m :: m in Picked(messages, window) <==> m in messages && Summarizable(m, window)
  {
    if messages != [] {
      var n := |messages| - 1;
      PickedAre(messages[..n], window);
      assert messages == messages[..n] + [messages[n]];
    }
  }

  /** Picks the messages to summarize, and says whether any was too large. */
  method PickForSummary(messages: seq<Message>, window: nat) returns (valid: seq<Message>, omitted: bool)
    ensures valid == Picked(messages, window)
    ensures forall m :: m in valid <==>
      m in messages && m.role in {User, Assistant} && |m.content| / 2 <= window / 2
    ensures omitted <==> exists i :: 0 <= i < |messages| && Oversized(messages[i], window)
    ensures omitted <==> exists m :: m in messages && m.role in {User, Assistant} && |m.content| / 2 > window / 2
  {
    PickedAre(messages, window);
    valid, omitted := [], false;
    for i := 0 to |messages|
      invariant valid == Picked(messages[..i], window)
      invariant omitted <==> exists k :: 0 <= k < i && Oversized(messages[k], window)
    {
      var m := messages[i];
      assert messages[..i + 1][..i] == messages[..i];
      if m.role == User || m.role == Assistant {
        if |m.content| / 2 > window / 2 {
          omitted := true;
        } else {
          valid := valid + [m];
        }
      }
    }
    assert messages[..|messages|] == messages;
  }

  /** What the model makes of a batch and an earlier summary, and of two summaries, empty
      when it fails. */
  datatype Summarizer = Summarizer(batch: (seq<Message>, string) -> string, merge: (string, string) -> string)

  const MAX_BATCH: nat := 10

  /** The two summaries merged, or side by side. */
  function Merged(llm: Summarizer, first: string, second: string): string {
    var merged := llm.merge(first, second);
    if merged != "" then merged else first + " " + second
  }

  /** `s` summarizes `valid`: as one batch behind the old summary, or, when they are many,
      as two batches that together are all of them, cut at the user message nearest to the
      middle. */
  ghost predicate Summarizes(llm: Summarizer, valid: seq<Message>, earlier: string, s: string) {
    if |valid| <= MAX_BATCH then s == llm.batch(valid, earlier)
    else exists mid: nat ::
      && IsNearestUser(valid, |valid| / 2, mid)
      && s == Merged(llm, llm.batch(valid[..mid], ""), llm.batch(valid[mid..], ""))
  }

  method Summarize(llm: Summarizer, valid: seq<Message>, earlier: string) returns (s: string)
    ensures Summarizes(llm, valid, earlier, s)
    ensures |valid| <= 10 ==> s == llm.batch(valid, earlier)
    ensures |valid| > 10 ==>
      exists mid: nat :: IsNearestUser(valid, |valid| / 2, mid) &&
        var x, y := llm.batch(valid[..mid], ""), llm.batch(valid[mid..], "");
        s == if llm.merge(x, y) == "" then x + " " + y else llm.merge(x, y)
  {
    if |valid| <= MAX_BATCH {
      return llm.batch(valid, earlier);
    }
    var mid := FindNearestUserMessage(valid, |valid| / 2);
    s := Merged(llm, llm.batch(valid[..mid], ""), llm.batch(valid[mid..], ""));
  }

  /** The user message to split at: the last one at or before `mid`, else the first one
      after it, else `mid` itself. */
  ghost predicate IsNearestUser(messages: seq<Message>, mid: nat, r: nat) {
    && r < |messages|
    && (r <= mid ==> forall k :: r < k <= mid ==> !IsUser(messages, k))
    && (r > mid ==> IsUser(messages, r) && forall k :: 0 <= k < r ==> !IsUser(messages, k))
    && (r == mid || IsUser(messages, r))
    && (IsUser(messages, r) || !HasUser(messages))
  }

  method FindNearestUserMessage(messages: seq<Message>, mid: nat) returns (r: nat)
    requires mid < |messages|
    ensures IsNearestUser(messages, mid, r)
  {
    r := mid;
    while r > 0 && messages[r].role != User
      invariant r <= mid && forall k :: r < k <= mid ==> !IsUser(messages, k)
    {
      r := r - 1;
    }
    if messages[r].role == User {
      return;
    }
    r := mid;
    while r < |messages| && messages[r].role != User
      invariant mid <= r <= |messages| && forall k :: 0 <= k < r ==> !IsUser(messages, k)
    {
      r := r + 1;
    }
    if r == |messages| {
      r := mid;
    }
  }

  /** Where compression cuts; 0 or less when the history is one single turn. */
  method CompressionCut(history: seq<Message>) returns (mid: int)
    requires |history| > 2
    ensures mid <= |history|
    ensures mid > 0 ==> Compressed(history) == history[mid..]
    ensures mid <= 0 ==> Compressed(history) == [history[0]] && IsSingleTurn(history)
  {
    var turns := ParseTurnBoundaries(history);
    if |turns| >= 2 {
      mid := turns[|turns| / 2];
      assert turns[0] < mid;
    } else {
      mid := FindSafeBoundary(history, |history| / 2);
      CutOfFewTurns(history, turns, mid);
    }
  }

  /** With fewer than two turns the safe boundary is the only user message, or the middle. */
  lemma CutOfFewTurns(h: seq<Message>, turns: seq<nat>, mid: int)
    requires |h| > 2 && ListsTurns(h, turns) && |turns| < 2 && IsSafeCut(h, |h| / 2, mid)
    ensures mid == if turns == [] then |h| / 2 else turns[0]
    ensures turns != [] ==> forall k :: IsUser(h, k) <==> k == turns[0]
  {
    if |turns| == 1 {
      assert IsUser(h, turns[0]);
      forall k ensures IsUser(h, k) ==> k == turns[0] {
        assert IsUser(h, k) ==> k in turns;
      }
    } else {
      forall k ensures !IsUser(h, k) {
        assert IsUser(h, k) ==> k in turns;
      }
    }
  }

  method Keep(history: seq<Message>) returns (kept: seq<Message>)
    requires |history| > 2
    ensures kept == Compressed(history)
  {
    var mid := CompressionCut(history);
    kept := [];
    if mid <= 0 {
      var i := |history| - 1;
      while i >= 0
        invariant 0 <= i < |history| && kept == []
      {
        assert IsUser(history, i) <==> i == 0;
        if history[i].role == User {
          kept := [history[i]];
          break;
        }
        i := i - 1;
      }
    } else {
      kept := history[mid..];
    }
  }

  /** The history is one turn that starts at its first message. */
  ghost predicate IsSingleTurn(h: seq<Message>) {
    forall k :: IsUser(h, k) <==> k == 0
  }

  function Note(dropped: nat): string {
    "[Emergency compression dropped " + Decimal(dropped) + " oldest messages due to context limit]"
  }

  /** Compression cuts at a user message, or in a history that has none, or keeps the
      user message of a history that is one single turn. */
  lemma CompressedCases(h: seq<Message>) returns (cut: nat)
    requires |h| > 2
    ensures cut < |h|
    ensures if IsSingleTurn(h) then cut == 0 && Compressed(h) == [h[0]]
      else cut > 0 && Compressed(h) == h[cut..] && (IsUser(h, cut) || !HasUser(h))
  {
    TurnStartsList(h, |h|);
    var turns := TurnStarts(h, |h|);
    if turns == [] {
      assert !IsUser(h, 0);
      cut := |h| / 2;
    } else {
      cut := turns[|turns| / 2];
      assert IsUser(h, cut);
      assert |turns| >= 2 ==> turns[0] < cut;
    }
  }

  /** Compression drops something, keeps something, and puts a user message first
      whenever there is one. */
  lemma CompressedProgress(h: seq<Message>)
    requires |h| > 2
    ensures 0 < |Compressed(h)| < |h|
    ensures HasUser(h) ==> Compressed(h)[0].role == User
  {
    var cut := CompressedCases(h);
    assert IsSingleTurn(h) ==> IsUser(h, 0);
  }

  /** Compression tears no tool-call group: the provider sees a suffix of what it would
      have seen, or, for a history that is one single turn, that turn's user message. */
  lemma CompressedTearsNothing(h: seq<Message>)
    requires |h| > 2
    ensures if IsSingleTurn(h) then Sanitized(Compressed(h)) == [h[0]]
      else IsSuffix(Sanitized(Compressed(h)), Sanitized(h))
  {
    var cut := CompressedCases(h);
    if IsSingleTurn(h) {
      assert IsUser(h, 0);
      PlainIsNormal([h[0]], false);
      NormalIsUnchanged([h[0]]);
    } else {
      CutTearsNothing(h, cut);
    }
  }

  function CompressedTimes(h: seq<Message>, n: nat): seq<Message>
    decreases n
  {
    if n == 0 || |h| <= 2 then h else CompressedTimes(Compressed(h), n - 1)
  }

  /** Repeating the compression always reaches two messages or fewer. */
  lemma {:induction false} RepeatedCompressionEnds(h: seq<Message>, n: nat)
    requires n + 2 >= |h|
    ensures |CompressedTimes(h, n)| <= 2
    decreases n
  {
    if n > 0 && |h| > 2 {
      CompressedProgress(h);
      RepeatedCompressionEnds(Compressed(h), n - 1);
    }
  }
}
