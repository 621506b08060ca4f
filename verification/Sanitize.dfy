/** The history filter that runs before every provider request: pass one drops
    orphans as it goes, pass two checks each tool-call group as a whole. */
module Sanitize {
  import opened Messages
  import opened Seqs

  // ----- Specification of the two passes

  /** Walking back over tool results from the end of `acc` reaches a caller. */
  predicate GroupOpen(acc: seq<Message>) {
    acc != [] &&
    var last := acc[|acc| - 1];
    if last.role == Tool then GroupOpen(acc[..|acc| - 1]) else IsCaller(last)
  }

  predicate EndsAtUserOrTool(acc: seq<Message>) {
    acc != [] && acc[|acc| - 1].role in {User, Tool}
  }

  /** Pass one keeps `m` after `acc`. */
  predicate Admits(acc: seq<Message>, m: Message) {
    match m.role
    case System => false
    case Tool => GroupOpen(acc)
    case Assistant => m.calls == [] || EndsAtUserOrTool(acc)
    case _ => true
  }

  function Push(acc: seq<Message>, m: Message): seq<Message> {
    if Admits(acc, m) then acc + [m] else acc
  }

  function PassOne(acc: seq<Message>, h: seq<Message>): seq<Message>
    decreases |h|
  {
    if h == [] then acc else PassOne(Push(acc, h[0]), h[1..])
  }

  /** The results pass two keeps out of one contiguous block. */
  function PickResults(block: seq<Message>, expected: set<string>, seen: set<string>): seq<Message> {
    if block == [] then []
    else
      var id := block[0].callId;
      if id == "" || id !in expected || id in seen then PickResults(block[1..], expected, seen)
      else [block[0]] + PickResults(block[1..], expected, seen + {id})
  }

  /** Every call has an id and an answer among `picked`. */
  predicate Complete(calls: seq<string>, picked: seq<Message>) {
    "" !in calls && Ids(calls) <= Ids(CallIds(picked))
  }

  function Group(caller: Message, block: seq<Message>): seq<Message> {
    var picked := PickResults(block, Ids(caller.calls) - {""}, {});
    if Complete(caller.calls, picked) then [caller] + picked else []
  }

  function PassTwo(s: seq<Message>): seq<Message>
    decreases |s|
  {
    if s == [] then []
    else if IsCaller(s[0]) then
      var n := ToolRun(s[1..]);
      Group(s[0], s[1..][..n]) + PassTwo(s[1..][n..])
    else if s[0].role == Tool then PassTwo(s[1..])
    else [s[0]] + PassTwo(s[1..])
  }

  function Sanitized(h: seq<Message>): seq<Message> {
    PassTwo(PassOne([], h))
  }

  // ----- Normal form

  predicate NoDuplicates(s: seq<string>) {
    s == [] || (s[0] !in s[1..] && NoDuplicates(s[1..]))
  }

  /** `results` answer `calls` one-to-one. */
  predicate Answers(calls: seq<string>, results: seq<Message>) {
    && "" !in calls
    && Ids(CallIds(results)) == Ids(calls)
    && NoDuplicates(CallIds(results))
  }

  /** What providers accept: no system messages; every caller follows a user or
      tool message and is followed at once by exactly its answers; no result
      stands elsewhere. `ready` says whether the message before `h` is a user or
      tool message. */
  predicate Normal(h: seq<Message>, ready: bool)
    decreases |h|
  {
    h == [] ||
    if IsCaller(h[0]) then
      var n := ToolRun(h[1..]);
      ready && Answers(h[0].calls, h[1..][..n]) && Normal(h[1..][n..], true)
    else
      IsPlain(h[0]) && Normal(h[1..], h[0].role == User)
  }

  // ----- Every output is in normal form

  /** What pass one leaves: each message was admitted after those before it. */
  predicate Shaped(s: seq<Message>) {
    forall k :: 0 <= k < |s| ==> Admits(s[..k], s[k])
  }

  lemma {:induction false} PassOneShaped(acc: seq<Message>, h: seq<Message>)
    requires Shaped(acc)
    ensures Shaped(PassOne(acc, h))
    decreases |h|
  {
    if h != [] {
      var acc' := Push(acc, h[0]);
      forall k | 0 <= k < |acc'| ensures Admits(acc'[..k], acc'[k]) {
        assert acc'[..k] == acc[..k];
      }
      PassOneShaped(acc', h[1..]);
    }
  }

  lemma {:induction false} PickedResults(block: seq<Message>, expected: set<string>, seen: set<string>)
    requires forall m :: m in block ==> m.role == Tool
    ensures var picked := PickResults(block, expected, seen);
      && (forall m :: m in picked ==> m.role == Tool)
      && NoDuplicates(CallIds(picked))
      && (forall id :: id in CallIds(picked) ==> id in expected - seen - {""})
  {
    if block != [] {
      var id := block[0].callId;
      if id == "" || id !in expected || id in seen {
        PickedResults(block[1..], expected, seen);
      } else {
        PickedResults(block[1..], expected, seen + {id});
        var rest := PickResults(block[1..], expected, seen + {id});
        assert ([block[0]] + rest)[1..] == rest;
        assert CallIds([block[0]] + rest)[1..] == CallIds(rest);
      }
    }
  }

  lemma {:induction false} ToolRunAppend(results: seq<Message>, rest: seq<Message>)
    requires forall m :: m in results ==> m.role == Tool
    requires rest == [] || rest[0].role != Tool
    ensures ToolRun(results + rest) == |results|
    ensures (results + rest)[..|results|] == results && (results + rest)[|results|..] == rest
  {
    if results == [] {
      assert results + rest == rest;
    } else {
      ToolRunAppend(results[1..], rest);
      assert (results + rest)[1..] == results[1..] + rest;
    }
  }

  lemma GroupStart(caller: Message, block: seq<Message>)
    ensures var g := Group(caller, block); g == [] || g[0] == caller
  {
  }

  lemma {:induction false} PassTwoStart(s: seq<Message>)
    ensures PassTwo(s) == [] || PassTwo(s)[0].role != Tool
    decreases |s|
  {
    if s == [] {
    } else if IsCaller(s[0]) {
      var n := ToolRun(s[1..]);
      PassTwoStart(s[1..][n..]);
      GroupStart(s[0], s[1..][..n]);
    } else if s[0].role == Tool {
      PassTwoStart(s[1..]);
    }
  }

  /** A complete group followed by normal messages is normal. */
  lemma GroupNormal(caller: Message, block: seq<Message>, rest: seq<Message>, ready: bool)
    requires IsCaller(caller) && ready
    requires forall m :: m in block ==> m.role == Tool
    requires Normal(rest, true) && (rest == [] || rest[0].role != Tool)
    ensures Normal(Group(caller, block) + rest, ready)
  {
    var picked := PickResults(block, Ids(caller.calls) - {""}, {});
    PickedResults(block, Ids(caller.calls) - {""}, {});
    if Complete(caller.calls, picked) {
      var g := Group(caller, block) + rest;
      assert g[1..] == picked + rest;
      ToolRunAppend(picked, rest);
      assert Ids(CallIds(picked)) == Ids(caller.calls);
    } else {
      assert Group(caller, block) + rest == rest;
    }
  }

  /** Pass two turns the rest of a shaped history, from any point where no result
      is pending, into normal form. */
  lemma {:induction false} PassTwoNormal(s: seq<Message>, k: nat, ready: bool)
    requires Shaped(s) && k <= |s|
    requires k < |s| ==> s[k].role != Tool
    requires EndsAtUserOrTool(s[..k]) ==> ready
    ensures Normal(PassTwo(s[k..]), ready)
    decreases |s| - k
  {
    if k < |s| {
      assert Admits(s[..k], s[k]);
      assert s[..k + 1] == s[..k] + [s[k]];
      if IsCaller(s[k]) {
        var next := k + 1 + ToolRun(s[k + 1..]);
        BehindRun(s, k + 1, next);
        PassTwoNormal(s, next, true);
        PassTwoStart(s[next..]);
        PassTwoCallerAt(s, k, next);
        GroupNormal(s[k], s[k + 1..][..next - k - 1], PassTwo(s[next..]), ready);
      } else {
        assert k + 1 < |s| ==> Admits(s[..k + 1], s[k + 1]);
        PassTwoNormal(s, k + 1, s[k].role == User);
        PassTwoSkipAt(s, k);
        assert ([s[k]] + PassTwo(s[k + 1..]))[1..] == PassTwo(s[k + 1..]);
      }
    }
  }

  /** Behind the run of results that starts at `from`. */
  lemma BehindRun(s: seq<Message>, from: nat, next: nat)
    requires from <= |s| && next == from + ToolRun(s[from..])
    ensures next < |s| ==> s[next].role != Tool
  {
    assert next < |s| ==> s[next] == s[from..][next - from];
  }

  /** Whatever was stored, what the provider gets is in normal form. */
  lemma SanitizedIsNormal(h: seq<Message>)
    ensures Normal(Sanitized(h), false)
  {
    PassOneShaped([], h);
    var s := PassOne([], h);
    if s != [] {
      assert Admits(s[..0], s[0]);
    }
    assert s[0..] == s;
    PassTwoNormal(s, 0, false);
  }

  // ----- Normal histories pass through unchanged

  /** Pass two leaves a run of exact answers alone. */
  lemma {:induction false} PickAll(block: seq<Message>, expected: set<string>, seen: set<string>)
    requires NoDuplicates(CallIds(block))
    requires forall id :: id in CallIds(block) ==> id in expected - seen - {""}
    ensures PickResults(block, expected, seen) == block
  {
    if block != [] {
      assert CallIds(block) == [block[0].callId] + CallIds(block[1..]);
      assert CallIds(block)[0] in CallIds(block);
      assert CallIds(block)[1..] == CallIds(block[1..]);
      forall id | id in CallIds(block[1..]) ensures id in expected - (seen + {block[0].callId}) - {""} {
        assert id in CallIds(block);
      }
      PickAll(block[1..], expected, seen + {block[0].callId});
    }
  }

  lemma AnswersAreGroup(caller: Message, block: seq<Message>)
    requires Answers(caller.calls, block)
    ensures Group(caller, block) == [caller] + block
  {
    assert forall id :: id in CallIds(block) ==> id in Ids(CallIds(block));
    PickAll(block, Ids(caller.calls) - {""}, {});
  }

  lemma {:induction false} PassTwoKeepsNormal(h: seq<Message>, ready: bool)
    requires Normal(h, ready)
    ensures PassTwo(h) == h
    decreases |h|
  {
    if h == [] {
    } else if IsCaller(h[0]) {
      var n := ToolRun(h[1..]);
      var rest := h[1..][n..];
      PassTwoKeepsNormal(rest, true);
      GroupIsUnchanged(h, n, rest);
    } else {
      PassTwoKeepsNormal(h[1..], h[0].role == User);
      PlainIsUnchanged(h);
    }
  }

  lemma PlainIsUnchanged(h: seq<Message>)
    requires h != [] && IsPlain(h[0]) && PassTwo(h[1..]) == h[1..]
    ensures PassTwo(h) == h
  {
    assert [h[0]] + h[1..] == h;
  }

  lemma GroupIsUnchanged(h: seq<Message>, n: nat, rest: seq<Message>)
    requires h != [] && IsCaller(h[0]) && n == ToolRun(h[1..]) && rest == h[1..][n..]
    requires Answers(h[0].calls, h[1..][..n]) && PassTwo(rest) == rest
    ensures PassTwo(h) == h
  {
    AnswersAreGroup(h[0], h[1..][..n]);
    HeadTail(h, n);
  }

  lemma {:induction false} PassOneKeepsBlock(acc: seq<Message>, block: seq<Message>)
    requires GroupOpen(acc)
    requires forall m :: m in block ==> m.role == Tool
    ensures PassOne(acc, block) == acc + block && GroupOpen(acc + block)
    decreases |block|
  {
    if block == [] {
      assert acc + block == acc;
    } else {
      GroupStaysOpen(acc, block[0]);
      PassOneKeepsBlock(acc + [block[0]], block[1..]);
      Assoc(acc, [block[0]], block[1..]);
      assert [block[0]] + block[1..] == block;
    }
  }

  lemma GroupStaysOpen(acc: seq<Message>, m: Message)
    requires GroupOpen(acc) && m.role == Tool
    ensures Push(acc, m) == acc + [m] && GroupOpen(acc + [m])
  {
    assert (acc + [m])[..|acc + [m]| - 1] == acc;
  }

  lemma {:induction false} PassOneSplit(acc: seq<Message>, a: seq<Message>, b: seq<Message>)
    ensures PassOne(acc, a + b) == PassOne(PassOne(acc, a), b)
    decreases |a|
  {
    if a == [] {
      assert a + b == b;
    } else {
      assert (a + b)[1..] == a[1..] + b;
      PassOneSplit(Push(acc, a[0]), a[1..], b);
    }
  }

  lemma PassOneKeepsGroup(acc: seq<Message>, caller: Message, block: seq<Message>)
    requires IsCaller(caller) && EndsAtUserOrTool(acc)
    requires forall m :: m in block ==> m.role == Tool
    requires Answers(caller.calls, block)
    ensures PassOne(acc, [caller] + block) == acc + ([caller] + block)
    ensures EndsAtUserOrTool(acc + ([caller] + block))
  {
    var open, group := acc + [caller], [caller] + block;
    AnswersSome(caller, block);
    assert group[1..] == block && Push(acc, caller) == open;
    PassOneKeepsBlock(open, block);
    Assoc(acc, [caller], block);
    assert (acc + group)[|acc + group| - 1] == block[|block| - 1];
  }

  lemma AnswersSome(caller: Message, block: seq<Message>)
    requires IsCaller(caller) && Answers(caller.calls, block)
    ensures block != []
  {
    assert caller.calls[0] in Ids(caller.calls);
  }

  lemma {:induction false} PassOneKeepsNormal(acc: seq<Message>, h: seq<Message>, ready: bool)
    requires Normal(h, ready)
    requires ready ==> EndsAtUserOrTool(acc)
    ensures PassOne(acc, h) == acc + h
    decreases |h|
  {
    if h == [] {
      assert acc + h == acc;
    } else if IsCaller(h[0]) {
      var n := ToolRun(h[1..]);
      var group, rest := [h[0]] + h[1..][..n], h[1..][n..];
      PassOneKeepsGroup(acc, h[0], h[1..][..n]);
      PassOneKeepsNormal(acc + group, rest, true);
      HeadTail(h, n);
      PassOneSplit(acc, group, rest);
      Assoc(acc, group, rest);
    } else {
      var acc' := acc + [h[0]];
      PassOneKeepsNormal(acc', h[1..], h[0].role == User);
      Assoc(acc, [h[0]], h[1..]);
    }
  }

  lemma NormalIsUnchanged(h: seq<Message>)
    requires Normal(h, false)
    ensures Sanitized(h) == h
  {
    PassOneKeepsNormal([], h, false);
    assert [] + h == h;
    PassTwoKeepsNormal(h, false);
  }

  lemma SanitizedIsIdempotent(h: seq<Message>)
    ensures Sanitized(Sanitized(h)) == Sanitized(h)
  {
    SanitizedIsNormal(h);
    NormalIsUnchanged(Sanitized(h));
  }

  // ----- Sanitizing distributes over turn boundaries

  /** What stands before a message other than a result has no influence after it. */
  lemma {:induction false} AdmitsIgnoresPast(past: seq<Message>, acc: seq<Message>, m: Message)
    requires acc != [] && acc[0].role != Tool
    ensures Admits(past + acc, m) == Admits(acc, m)
    ensures GroupOpen(past + acc) == GroupOpen(acc)
    decreases |acc|
  {
    var all := past + acc;
    assert all[|all| - 1] == acc[|acc| - 1];
    if acc[|acc| - 1].role == Tool {
      assert all[..|all| - 1] == past + acc[..|acc| - 1];
      AdmitsIgnoresPast(past, acc[..|acc| - 1], m);
    }
  }

  lemma {:induction false} PassOneIgnoresPast(past: seq<Message>, acc: seq<Message>, h: seq<Message>)
    requires acc != [] && acc[0].role != Tool
    ensures PassOne(past + acc, h) == past + PassOne(acc, h)
    ensures PassOne(acc, h) != [] && PassOne(acc, h)[0] == acc[0]
    decreases |h|
  {
    if h != [] {
      AdmitsIgnoresPast(past, acc, h[0]);
      assert past + acc + [h[0]] == past + (acc + [h[0]]);
      PassOneIgnoresPast(past, Push(acc, h[0]), h[1..]);
    }
  }

  lemma PassTwoGroup(s: seq<Message>, block: seq<Message>, rest: seq<Message>)
    requires s != [] && IsCaller(s[0]) && s[1..] == block + rest
    requires forall m :: m in block ==> m.role == Tool
    requires rest == [] || rest[0].role != Tool
    ensures PassTwo(s) == Group(s[0], block) + PassTwo(rest)
  {
    ToolRunAppend(block, rest);
  }

  lemma PassTwoSkip(s: seq<Message>)
    requires s != [] && !IsCaller(s[0])
    ensures PassTwo(s) == (if s[0].role == Tool then [] else [s[0]]) + PassTwo(s[1..])
  {
  }

  lemma {:induction false} PassTwoDistributes(a: seq<Message>, b: seq<Message>)
    requires b == [] || b[0].role != Tool
    ensures PassTwo(a + b) == PassTwo(a) + PassTwo(b)
    decreases |a|
  {
    if a == [] {
      assert a + b == b && PassTwo(a) + PassTwo(b) == PassTwo(b);
    } else if IsCaller(a[0]) {
      var rest := a[1..][ToolRun(a[1..])..];
      assert |rest| < |a|;
      PassTwoDistributes(rest, b);
      PassTwoBehindGroup(a, b, rest);
    } else {
      PassTwoDistributes(a[1..], b);
      PassTwoBehindSkip(a, b);
    }
  }

  lemma PassTwoBehindSkip(a: seq<Message>, b: seq<Message>)
    requires a != [] && !IsCaller(a[0]) && PassTwo(a[1..] + b) == PassTwo(a[1..]) + PassTwo(b)
    ensures PassTwo(a + b) == PassTwo(a) + PassTwo(b)
  {
    SplitTail(a, b, 0);
    PassTwoSkip(a);
    PassTwoSkip(a + b);
    assert (a + b)[1..] == a[1..] + b;
    Assoc(if a[0].role == Tool then [] else [a[0]], PassTwo(a[1..]), PassTwo(b));
  }

  lemma PassTwoBehindGroup(a: seq<Message>, b: seq<Message>, rest: seq<Message>)
    requires a != [] && IsCaller(a[0]) && (b == [] || b[0].role != Tool)
    requires rest == a[1..][ToolRun(a[1..])..] && PassTwo(rest + b) == PassTwo(rest) + PassTwo(b)
    ensures PassTwo(a + b) == PassTwo(a) + PassTwo(b)
  {
    var n := ToolRun(a[1..]);
    var block := a[1..][..n];
    SplitTail(a, b, n);
    PassTwoGroup(a, block, rest);
    PassTwoGroup(a + b, block, rest + b);
    Assoc(Group(a[0], block), PassTwo(rest), PassTwo(b));
  }

  /** Sanitizing a history is sanitizing its two parts, wherever the second part
      starts with a plain message, so in particular at every user message. */
  lemma SanitizedDistributes(a: seq<Message>, b: seq<Message>)
    requires b == [] || IsPlain(b[0])
    ensures Sanitized(a + b) == Sanitized(a) + Sanitized(b)
  {
    if b == [] {
      assert a + b == a;
    } else {
      PassOneSplit([], a, b);
      var past := PassOne([], a);
      assert [] + [b[0]] == [b[0]];
      PassOneIgnoresPast(past, [b[0]], b[1..]);
      assert PassOne([], b) == PassOne([b[0]], b[1..]);
      PassTwoDistributes(past, PassOne([], b));
    }
  }

  /** A cut at a user message leaves a suffix of the sanitized whole. */
  lemma CutAtUserLeavesSuffix(h: seq<Message>, cut: nat)
    requires cut < |h| && h[cut].role == User
    ensures var whole, kept := Sanitized(h), Sanitized(h[cut..]);
      |kept| <= |whole| && whole[|whole| - |kept|..] == kept
  {
    assert h == h[..cut] + h[cut..];
    SanitizedDistributes(h[..cut], h[cut..]);
  }

  // ----- Nothing is invented, nothing plain is lost

  predicate Subsequence(a: seq<Message>, b: seq<Message>)
    decreases |b|
  {
    a == [] || (b != [] && (Subsequence(a, b[1..]) || (a[0] == b[0] && Subsequence(a[1..], b[1..]))))
  }

  function PlainOnes(h: seq<Message>): seq<Message> {
    if h == [] then [] else (if IsPlain(h[0]) then [h[0]] else []) + PlainOnes(h[1..])
  }

  lemma {:induction false} SubsequenceAppend(a: seq<Message>, b: seq<Message>, c: seq<Message>, d: seq<Message>)
    requires Subsequence(a, b) && Subsequence(c, d)
    ensures Subsequence(a + c, b + d)
    decreases |b|
  {
    if b == [] {
      assert a + c == c && b + d == d;
    } else {
      assert (b + d)[1..] == b[1..] + d;
      if a == [] || Subsequence(a, b[1..]) {
        SubsequenceAppend(a, b[1..], c, d);
        SubsequenceSkip(a + c, b + d);
      } else {
        SubsequenceAppend(a[1..], b[1..], c, d);
        assert (a + c)[1..] == a[1..] + c;
      }
    }
  }

  lemma SubsequenceSkip(a: seq<Message>, b: seq<Message>)
    requires b != [] && Subsequence(a, b[1..])
    ensures Subsequence(a, b)
  {
  }

  lemma {:induction false} SubsequenceTrans(a: seq<Message>, b: seq<Message>, c: seq<Message>)
    requires Subsequence(a, b) && Subsequence(b, c)
    ensures Subsequence(a, c)
    decreases |b| + |c|
  {
    if a != [] {
      if Subsequence(b, c[1..]) {
        SubsequenceTrans(a, b, c[1..]);
      } else if Subsequence(a, b[1..]) {
        SubsequenceTrans(a, b[1..], c[1..]);
      } else {
        SubsequenceTrans(a[1..], b[1..], c[1..]);
      }
    }
  }

  lemma {:induction false} PlainOnesAppend(a: seq<Message>, b: seq<Message>)
    ensures PlainOnes(a + b) == PlainOnes(a) + PlainOnes(b)
  {
    if a == [] {
      assert a + b == b;
    } else {
      assert (a + b)[1..] == a[1..] + b;
      PlainOnesAppend(a[1..], b);
      Assoc(if IsPlain(a[0]) then [a[0]] else [], PlainOnes(a[1..]), PlainOnes(b));
    }
  }

  lemma {:induction false} NoPlainAmongTools(block: seq<Message>)
    requires forall m :: m in block ==> m.role == Tool
    ensures PlainOnes(block) == []
  {
    if block != [] {
      NoPlainAmongTools(block[1..]);
    }
  }

  lemma {:induction false} PickIsSubsequence(block: seq<Message>, expected: set<string>, seen: set<string>)
    ensures Subsequence(PickResults(block, expected, seen), block)
  {
    if block != [] {
      var id := block[0].callId;
      if id == "" || id !in expected || id in seen {
        PickIsSubsequence(block[1..], expected, seen);
      } else {
        PickIsSubsequence(block[1..], expected, seen + {id});
        var rest := PickResults(block[1..], expected, seen + {id});
        assert ([block[0]] + rest)[1..] == rest;
      }
    }
  }

  lemma {:induction false} PassOneSelects(acc: seq<Message>, h: seq<Message>, from: seq<Message>, all: seq<Message>)
    requires Subsequence(acc, from) && PlainOnes(acc) == PlainOnes(from) && from + h == all
    ensures Subsequence(PassOne(acc, h), all) && PlainOnes(PassOne(acc, h)) == PlainOnes(all)
    decreases |h|
  {
    if h == [] {
      assert from == all;
    } else {
      PushSelects(acc, h[0], from);
      assert from + [h[0]] + h[1..] == all;
      PassOneSelects(Push(acc, h[0]), h[1..], from + [h[0]], all);
    }
  }

  lemma PushSelects(acc: seq<Message>, m: Message, from: seq<Message>)
    requires Subsequence(acc, from) && PlainOnes(acc) == PlainOnes(from)
    ensures Subsequence(Push(acc, m), from + [m]) && PlainOnes(Push(acc, m)) == PlainOnes(from + [m])
  {
    var one := [m];
    var add := if Admits(acc, m) then one else [];
    assert one[1..] == [] && Subsequence(add, one);
    assert Push(acc, m) == acc + add;
    SubsequenceAppend(acc, from, add, one);
    PlainOnesAppend(acc, add);
    PlainOnesAppend(from, one);
  }

  lemma {:induction false} PassTwoSelects(s: seq<Message>)
    ensures Subsequence(PassTwo(s), s) && PlainOnes(PassTwo(s)) == PlainOnes(s)
    decreases |s|
  {
    if s == [] {
    } else if IsCaller(s[0]) {
      var n := ToolRun(s[1..]);
      var block, rest := s[1..][..n], s[1..][n..];
      assert s == [s[0]] + block + rest;
      assert ([s[0]] + block)[1..] == block;
      PassTwoSelects(rest);
      var expected := Ids(s[0].calls) - {""};
      var picked := PickResults(block, expected, {});
      PickIsSubsequence(block, expected, {});
      PickedResults(block, expected, {});
      assert ([s[0]] + picked)[1..] == picked;
      var g := Group(s[0], block);
      assert Subsequence(g, [s[0]] + block);
      SubsequenceAppend(g, [s[0]] + block, PassTwo(rest), rest);
      NoPlainAmongTools(block);
      NoPlainAmongTools(picked);
      PlainOnesAppend(g, PassTwo(rest));
      PlainOnesAppend([s[0]] + block, rest);
    } else {
      PassTwoSelects(s[1..]);
      assert ([s[0]] + PassTwo(s[1..]))[1..] == PassTwo(s[1..]);
    }
  }

  /** Sanitizing only drops messages, and never a plain one. */
  lemma SanitizedSelects(h: seq<Message>)
    ensures Subsequence(Sanitized(h), h)
    ensures PlainOnes(Sanitized(h)) == PlainOnes(h)
  {
    PassOneSelects([], h, [], h);
    var s := PassOne([], h);
    PassTwoSelects(s);
    SubsequenceTrans(Sanitized(h), s, h);
  }

  // ----- What survives of a history that is not in normal form

  /** Every call has an id, and a result with that id. */
  predicate IsAnswered(calls: seq<string>, block: seq<Message>) {
    forall id :: id in calls ==> id != "" && id in CallIds(block)
  }

  /** The results of `block` that are the first to answer one of `calls`. */
  function FirstAnswers(calls: seq<string>, block: seq<Message>): seq<Message> {
    if block == [] then []
    else
      var n := |block| - 1;
      var isFirst := block[n].callId in calls && block[n].callId !in CallIds(block[..n]);
      FirstAnswers(calls, block[..n]) + if isFirst then [block[n]] else []
  }

  /** What is left of a caller and the results behind it. */
  function Survivors(caller: Message, block: seq<Message>): seq<Message> {
    if IsAnswered(caller.calls, block) then [caller] + FirstAnswers(caller.calls, block) else []
  }

  lemma {:induction false} PickLast(block: seq<Message>, m: Message, expected: set<string>, seen: set<string>)
    ensures PickResults(block + [m], expected, seen) == PickResults(block, expected, seen) +
      if m.callId != "" && m.callId in expected && m.callId !in seen && m.callId !in CallIds(block) then [m] else []
    decreases |block|
  {
    if block == [] {
      PickOne(m, expected, seen);
    } else {
      var id := block[0].callId;
      assert (block + [m])[1..] == block[1..] + [m] && (block + [m])[0] == block[0];
      var seen' := if id == "" || id !in expected || id in seen then seen else seen + {id};
      PickLast(block[1..], m, expected, seen');
    }
  }

  lemma PickOne(m: Message, expected: set<string>, seen: set<string>)
    ensures PickResults([] + [m], expected, seen) == PickResults([], expected, seen) +
      if m.callId != "" && m.callId in expected && m.callId !in seen then [m] else []
  {
    assert ([] + [m])[1..] == [] && [m] + [] == [m];
  }

  lemma {:induction false} PickedAreFirst(calls: seq<string>, block: seq<Message>)
    requires "" !in calls
    ensures PickResults(block, Ids(calls) - {""}, {}) == FirstAnswers(calls, block)
    decreases |block|
  {
    if block != [] {
      var n := |block| - 1;
      PickedAreFirst(calls, block[..n]);
      PickLast(block[..n], block[n], Ids(calls) - {""}, {});
      SplitLast(block);
    }
  }

  lemma {:induction false} AnswersFound(calls: seq<string>, block: seq<Message>, id: string)
    requires id in calls
    ensures id in CallIds(FirstAnswers(calls, block)) <==> id in CallIds(block)
    decreases |block|
  {
    if block != [] {
      var n := |block| - 1;
      AnswersFound(calls, block[..n], id);
      CallIdsOfLast(block);
      OneMoreAnswer(FirstAnswers(calls, block[..n]), CallIds(block[..n]), block[n], calls, id);
    }
  }

  lemma CallIdsOfLast(block: seq<Message>)
    requires block != []
    ensures var n := |block| - 1; CallIds(block) == CallIds(block[..n]) + [block[n].callId]
  {
    SplitLast(block);
    CallIdsAppend(block[..|block| - 1], block[|block| - 1]);
  }

  lemma OneMoreAnswer(found: seq<Message>, ids: seq<string>, m: Message, calls: seq<string>, id: string)
    requires id in calls && (id in CallIds(found) <==> id in ids)
    ensures id in CallIds(found + if m.callId in calls && m.callId !in ids then [m] else []) <==> id in ids + [m.callId]
  {
    CallIdsAppend(found, m);
    assert found + [] == found;
  }

  lemma GroupIsSurvivors(caller: Message, block: seq<Message>)
    ensures Group(caller, block) == Survivors(caller, block)
  {
    var calls, picked := caller.calls, FirstAnswers(caller.calls, block);
    if "" !in calls {
      PickedAreFirst(calls, block);
      forall id | id in calls ensures id in Ids(CallIds(picked)) <==> id in CallIds(block) {
        AnswersFound(calls, block, id);
      }
      assert forall id :: id in calls <==> id in Ids(calls);
      assert Complete(calls, picked) <==> IsAnswered(calls, block);
    }
  }

  lemma PassOneLast(a: seq<Message>, m: Message)
    ensures PassOne([], a + [m]) == Push(PassOne([], a), m)
  {
    PassOneSplit([], a, [m]);
    assert [m][1..] == [];
  }

  lemma PassOneOfUser(a: seq<Message>)
    requires a != [] && a[|a| - 1].role == User
    ensures EndsAtUserOrTool(PassOne([], a))
  {
    SplitLast(a);
    PassOneLast(a[..|a| - 1], a[|a| - 1]);
  }

  /** Pass one takes a caller behind a user message or a result, and the results behind it. */
  lemma PassOneTakesGroup(acc: seq<Message>, caller: Message, block: seq<Message>)
    requires IsCaller(caller) && EndsAtUserOrTool(acc) && forall m :: m in block ==> m.role == Tool
    ensures PassOne(acc, [caller] + block) == acc + ([caller] + block)
  {
    var group := [caller] + block;
    assert group[1..] == block && Push(acc, caller) == acc + [caller];
    PassOneKeepsBlock(acc + [caller], block);
    Assoc(acc, [caller], block);
  }

  /** Pass two of what pass one took, with `rest` behind it. */
  lemma PassTwoOfGroup(acc: seq<Message>, caller: Message, block: seq<Message>, rest: seq<Message>)
    requires IsCaller(caller) && (forall m :: m in block ==> m.role == Tool) && (rest == [] || rest[0].role != Tool)
    ensures PassTwo(acc + ([caller] + block) + rest) == PassTwo(acc) + Survivors(caller, block) + PassTwo(rest)
  {
    var group := [caller] + block;
    PassTwoDistributes(acc + group, rest);
    PassTwoDistributes(acc, group);
    assert group[1..] == block + [];
    PassTwoGroup(group, block, []);
    GroupIsSurvivors(caller, block);
    assert Survivors(caller, block) + PassTwo([]) == Survivors(caller, block);
  }

  /** A caller right behind a user message is kept with its results exactly when every call
      has an id and an answer; of the results, the first answer to each call is kept. Before
      and after it everything is as it would be without it. */
  lemma GroupSurvives(a: seq<Message>, caller: Message, block: seq<Message>, b: seq<Message>)
    requires a != [] && a[|a| - 1].role == User && IsCaller(caller)
    requires (forall m :: m in block ==> m.role == Tool) && (b == [] || IsPlain(b[0]))
    ensures Sanitized(a + ([caller] + block) + b) == Sanitized(a) + Survivors(caller, block) + Sanitized(b)
  {
    var group, acc := [caller] + block, PassOne([], a);
    SanitizedDistributes(a + group, b);
    PassOneOfUser(a);
    PassOneSplit([], a, group);
    PassOneTakesGroup(acc, caller, block);
    PassTwoOfGroup(acc, caller, block, []);
    assert acc + group + [] == acc + group;
    assert PassTwo(acc) + Survivors(caller, block) + PassTwo([]) == PassTwo(acc) + Survivors(caller, block);
  }

  /** So is the next caller of the same turn, behind at least one result: what follows is as
      it would be right behind any user message `u`. */
  lemma NextGroupSurvives(a: seq<Message>, caller: Message, block: seq<Message>, b: seq<Message>, u: Message)
    requires a != [] && a[|a| - 1].role == User && IsCaller(caller) && u.role == User
    requires (forall m :: m in block ==> m.role == Tool) && block != [] && b != [] && IsCaller(b[0])
    ensures Sanitized([u] + b) != []
    ensures Sanitized(a + ([caller] + block) + b) == Sanitized(a) + Survivors(caller, block) + Sanitized([u] + b)[1..]
  {
    var group, acc := [caller] + block, PassOne([], a);
    PassOneOfUser(a);
    PassOneSplit([], a + group, b);
    PassOneSplit([], a, group);
    PassOneTakesGroup(acc, caller, block);
    assert (acc + group)[|acc + group| - 1] == block[|block| - 1];
    CallerComesNext(acc + group, b);
    var rest := PassOne([b[0]], b[1..]);
    PassOneIgnoresPast([], [b[0]], b[1..]);
    PassTwoOfGroup(acc, caller, block, rest);
    BehindUser(u, b);
  }

  /** A caller behind a user message or a result starts afresh. */
  lemma CallerComesNext(acc: seq<Message>, b: seq<Message>)
    requires EndsAtUserOrTool(acc) && b != [] && IsCaller(b[0])
    ensures PassOne(acc, b) == acc + PassOne([b[0]], b[1..])
  {
    PassOneIgnoresPast(acc, [b[0]], b[1..]);
  }

  lemma BehindUser(u: Message, b: seq<Message>)
    requires u.role == User && b != [] && IsCaller(b[0])
    ensures Sanitized([u] + b) == [u] + PassTwo(PassOne([b[0]], b[1..]))
  {
    var rest := PassOne([b[0]], b[1..]);
    assert ([u] + b)[1..] == b && [] + [u] == [u];
    CallerComesNext([u], b);
    assert ([u] + rest)[1..] == rest;
    PassTwoSkip([u] + rest);
  }

  lemma {:induction false} PassOneDropsResults(acc: seq<Message>, block: seq<Message>)
    requires !GroupOpen(acc) && forall m :: m in block ==> m.role == Tool
    ensures PassOne(acc, block) == acc
    decreases |block|
  {
    if block != [] {
      assert block[0] in block;
      PassOneDropsResults(acc, block[1..]);
    }
  }

  lemma PassOneOfPlain(a: seq<Message>)
    requires a == [] || IsPlain(a[|a| - 1])
    ensures var acc := PassOne([], a);
      !GroupOpen(acc) && if a == [] then acc == [] else acc != [] && acc[|acc| - 1] == a[|a| - 1]
  {
    if a != [] {
      SplitLast(a);
      PassOneLast(a[..|a| - 1], a[|a| - 1]);
    }
  }

  /** Results that stand at the start or behind a plain message are dropped. */
  lemma OrphansAreDropped(a: seq<Message>, block: seq<Message>, b: seq<Message>)
    requires a == [] || IsPlain(a[|a| - 1])
    requires (forall m :: m in block ==> m.role == Tool) && (b == [] || IsPlain(b[0]))
    ensures Sanitized(a + block + b) == Sanitized(a) + Sanitized(b)
  {
    SanitizedDistributes(a + block, b);
    PassOneOfPlain(a);
    PassOneSplit([], a, block);
    PassOneDropsResults(PassOne([], a), block);
  }

  /** A caller at the start, or behind a plain message that is not the user's, is dropped with
      the results behind it. */
  lemma StrayCallerIsDropped(a: seq<Message>, caller: Message, block: seq<Message>, b: seq<Message>)
    requires a == [] || (IsPlain(a[|a| - 1]) && a[|a| - 1].role != User)
    requires IsCaller(caller) && (forall m :: m in block ==> m.role == Tool) && (b == [] || IsPlain(b[0]))
    ensures Sanitized(a + ([caller] + block) + b) == Sanitized(a) + Sanitized(b)
  {
    var group := [caller] + block;
    SanitizedDistributes(a + group, b);
    PassOneOfPlain(a);
    PassOneSplit([], a, group);
    assert group[1..] == block && Push(PassOne([], a), caller) == PassOne([], a);
    PassOneDropsResults(PassOne([], a), block);
  }

  /** System messages are dropped wherever they stand, and nothing else changes. */
  lemma SystemIsDropped(a: seq<Message>, m: Message, b: seq<Message>)
    requires m.role == System
    ensures Sanitized(a + [m] + b) == Sanitized(a + b)
  {
    PassOneSplit([], a + [m], b);
    PassOneLast(a, m);
    PassOneSplit([], a, b);
  }

  /** A caller right behind a caller that pass one took is dropped, and the results behind it
      are taken for the first one's. */
  lemma SecondCallerIsDropped(a: seq<Message>, caller: Message, second: Message, b: seq<Message>)
    requires a != [] && a[|a| - 1].role == User && IsCaller(caller) && IsCaller(second)
    ensures Sanitized(a + [caller] + [second] + b) == Sanitized(a + [caller] + b)
  {
    PassOneOfUser(a);
    PassOneLast(a, caller);
    PassOneLast(a + [caller], second);
    PassOneSplit([], a + [caller] + [second], b);
    PassOneSplit([], a + [caller], b);
  }

  // ----- The filter itself

  /** Walks back over tool results to the nearest other message. */
  method FindCaller(sanitized: seq<Message>) returns (found: bool)
    ensures found == GroupOpen(sanitized)
  {
    found := false;
    var i := |sanitized|;
    assert sanitized[..i] == sanitized;
    while i > 0
      invariant 0 <= i <= |sanitized|
      invariant GroupOpen(sanitized[..i]) == GroupOpen(sanitized)
    {
      var m := sanitized[i - 1];
      assert sanitized[..i][..i - 1] == sanitized[..i - 1];
      if m.role != Tool {
        return IsCaller(m);
      }
      i := i - 1;
    }
  }

  method RunPassOne(history: seq<Message>) returns (sanitized: seq<Message>)
    ensures sanitized == PassOne([], history)
  {
    sanitized := [];
    assert history[0..] == history;
    for k := 0 to |history|
      invariant PassOne(sanitized, history[k..]) == PassOne([], history)
    {
      var msg := history[k];
      assert history[k..][1..] == history[k + 1..];
      match msg.role {
        case System =>
        case Tool =>
          var found := FindCaller(sanitized);
          if found {
            sanitized := sanitized + [msg];
          }
        case Assistant =>
          if msg.calls == [] {
            sanitized := sanitized + [msg];
          } else if |sanitized| > 0 {
            var prev := sanitized[|sanitized| - 1];
            if prev.role == User || prev.role == Tool {
              sanitized := sanitized + [msg];
            }
          }
        case _ =>
          sanitized := sanitized + [msg];
      }
    }
  }

  /** Collects the expected ids of one caller; an empty id makes it invalid. */
  method ExpectedIds(calls: seq<string>) returns (expected: map<string, bool>, invalid: bool)
    ensures expected.Keys == Ids(calls) - {""}
    ensures forall id :: id in expected ==> !expected[id]
    ensures invalid == ("" in calls)
  {
    expected, invalid := map[], false;
    for k := 0 to |calls|
      invariant expected.Keys == Ids(calls[..k]) - {""}
      invariant forall id :: id in expected ==> !expected[id]
      invariant invalid == ("" in calls[..k])
    {
      assert calls[..k + 1] == calls[..k] + [calls[k]];
      if calls[k] == "" {
        invalid := true;
      } else {
        expected := expected[calls[k] := false];
      }
    }
    assert calls[..|calls|] == calls;
  }

  lemma {:induction false} CallIdsAppend(block: seq<Message>, m: Message)
    ensures CallIds(block + [m]) == CallIds(block) + [m.callId]
  {
    if block != [] {
      assert (block + [m])[1..] == block[1..] + [m];
      CallIdsAppend(block[1..], m);
    }
  }

  lemma IdsAppend(block: seq<Message>, m: Message)
    ensures Ids(CallIds(block + [m])) == Ids(CallIds(block)) + {m.callId}
  {
    CallIdsAppend(block, m);
  }

  lemma PickStep(all: seq<Message>, k: nat, ids: set<string>, seen: set<string>, block: seq<Message>)
    requires k < |all|
    ensures var m := all[k];
      block + PickResults(all[k..], ids, seen) ==
      if m.callId == "" || m.callId !in ids || m.callId in seen
      then block + PickResults(all[k + 1..], ids, seen)
      else (block + [m]) + PickResults(all[k + 1..], ids, seen + {m.callId})
  {
    DropDrop(all, k, 1);
    var m := all[k];
    assert all[k..][0] == m;
    Assoc(block, [m], PickResults(all[k + 1..], ids, seen + {m.callId}));
  }

  /** Scans the results from `from` on, marking the expected ids that are answered. */
  method ScanBlock(sanitized: seq<Message>, from: nat, waiting: map<string, bool>)
    returns (block: seq<Message>, expected: map<string, bool>, j: nat)
    requires from <= |sanitized|
    requires forall id :: id in waiting ==> !waiting[id]
    ensures j == from + ToolRun(sanitized[from..])
    ensures block == PickResults(sanitized[from..][..j - from], waiting.Keys, {})
    ensures expected.Keys == waiting.Keys
    ensures forall id :: id in expected ==> (expected[id] <==> id in CallIds(block))
  {
    ghost var run := ToolRun(sanitized[from..]);
    ghost var all := sanitized[from..][..run];
    block, expected, j := [], waiting, from;
    var seenInBlock: set<string> := {};
    ScanStart(all, waiting);
    while j < |sanitized| && sanitized[j].role == Tool
      invariant from <= j <= from + run
      invariant Scanned(all, j - from, waiting, block, seenInBlock, expected)
      decreases |sanitized| - j
    {
      var next := sanitized[j];
      RunGoesOn(sanitized, from, j);
      ScanStep(all, j - from, waiting, block, seenInBlock, expected);
      if next.callId != "" && next.callId in expected && next.callId !in seenInBlock {
        seenInBlock := seenInBlock + {next.callId};
        expected := expected[next.callId := true];
        block := block + [next];
      }
      j := j + 1;
    }
    RunEnds(sanitized, from, j);
    ScanEnd(all, waiting, block, seenInBlock, expected);
  }

  /** What the scan has done after `k` of `all` results. */
  ghost predicate Scanned(all: seq<Message>, k: nat, waiting: map<string, bool>, block: seq<Message>, seen: set<string>,
                          expected: map<string, bool>)
  {
    && k <= |all| && expected.Keys == waiting.Keys && seen == Ids(CallIds(block))
    && (forall id :: id in expected ==> (expected[id] <==> id in seen))
    && block + PickResults(all[k..], waiting.Keys, seen) == PickResults(all, waiting.Keys, {})
  }

  lemma ScanStart(all: seq<Message>, waiting: map<string, bool>)
    requires forall id :: id in waiting ==> !waiting[id]
    ensures Scanned(all, 0, waiting, [], {}, waiting)
  {
    assert all[0..] == all;
  }

  lemma ScanEnd(all: seq<Message>, waiting: map<string, bool>, block: seq<Message>, seen: set<string>,
                expected: map<string, bool>)
    requires Scanned(all, |all|, waiting, block, seen, expected)
    ensures block == PickResults(all, waiting.Keys, {})
    ensures forall id :: id in expected ==> (expected[id] <==> id in CallIds(block))
  {
    assert all[|all|..] == [] && block + [] == block;
  }

  lemma ScanStep(all: seq<Message>, k: nat, waiting: map<string, bool>, block: seq<Message>, seen: set<string>,
                 expected: map<string, bool>)
    requires Scanned(all, k, waiting, block, seen, expected) && k < |all|
    ensures var m := all[k];
      if m.callId != "" && m.callId in expected && m.callId !in seen
      then Scanned(all, k + 1, waiting, block + [m], seen + {m.callId}, expected[m.callId := true])
      else Scanned(all, k + 1, waiting, block, seen, expected)
  {
    PickStep(all, k, waiting.Keys, seen, block);
    IdsAppend(block, all[k]);
  }

  /** The scan at `j` is still inside the run of results. */
  lemma RunGoesOn(s: seq<Message>, from: nat, j: nat)
    requires from <= j < |s| && s[j].role == Tool && j <= from + ToolRun(s[from..])
    ensures j < from + ToolRun(s[from..]) && s[from..][..ToolRun(s[from..])][j - from] == s[j]
  {
    assert s[from..][j - from] == s[j];
  }

  lemma RunEnds(s: seq<Message>, from: nat, j: nat)
    requires from <= j <= |s| && (j == |s| || s[j].role != Tool) && j <= from + ToolRun(s[from..])
    ensures j == from + ToolRun(s[from..])
  {
    assert j < |s| ==> s[from..][j - from] == s[j];
  }

  /** Decides about the group of the caller at `i`. */
  method ScanGroup(sanitized: seq<Message>, i: nat) returns (group: seq<Message>, j: nat)
    requires i < |sanitized| && IsCaller(sanitized[i])
    ensures j == i + 1 + ToolRun(sanitized[i + 1..])
    ensures group == Group(sanitized[i], sanitized[i + 1..][..j - i - 1])
  {
    var msg := sanitized[i];
    var waiting, invalid := ExpectedIds(msg.calls);
    var block, expected;
    block, expected, j := ScanBlock(sanitized, i + 1, waiting);
    var allFound := !invalid && forall id :: id in expected ==> expected[id];
    assert allFound == Complete(msg.calls, block) by {
      if !invalid {
        assert expected.Keys == Ids(msg.calls);
        assert forall id :: id in expected ==> (expected[id] <==> id in Ids(CallIds(block)));
      }
    }
    group := if allFound then [msg] + block else [];
  }

  method RunPassTwo(sanitized: seq<Message>) returns (final: seq<Message>)
    ensures final == PassTwo(sanitized)
  {
    final := [];
    var i := 0;
    assert sanitized[0..] == sanitized;
    while i < |sanitized|
      invariant 0 <= i <= |sanitized|
      invariant final + PassTwo(sanitized[i..]) == PassTwo(sanitized)
    {
      var msg := sanitized[i];
      if IsCaller(msg) {
        var group, j := ScanGroup(sanitized, i);
        PassTwoCallerAt(sanitized, i, j);
        Assoc(final, group, PassTwo(sanitized[j..]));
        final := final + group;
        i := j;
      } else {
        PassTwoSkipAt(sanitized, i);
        var kept := if msg.role == Tool then [] else [msg];
        Assoc(final, kept, PassTwo(sanitized[i + 1..]));
        final := final + kept;
        i := i + 1;
      }
    }
  }

  lemma PassTwoCaller(s: seq<Message>, tail: seq<Message>, n: nat, rest: seq<Message>)
    requires s != [] && IsCaller(s[0]) && tail == s[1..] && n == ToolRun(tail) && rest == tail[n..]
    ensures PassTwo(s) == Group(s[0], tail[..n]) + PassTwo(rest)
  {
  }

  lemma PassTwoCallerAt(s: seq<Message>, i: nat, j: nat)
    requires i < |s| && IsCaller(s[i]) && j == i + 1 + ToolRun(s[i + 1..])
    ensures PassTwo(s[i..]) == Group(s[i], s[i + 1..][..j - i - 1]) + PassTwo(s[j..])
  {
    TailAt(s, i, j);
    PassTwoCaller(s[i..], s[i + 1..], j - i - 1, s[j..]);
  }

  lemma TailAt(s: seq<Message>, i: nat, j: nat)
    requires i < j <= |s|
    ensures s[i..][0] == s[i] && s[i + 1..] == s[i..][1..] && s[j..] == s[i + 1..][j - i - 1..]
  {
  }

  lemma PassTwoSkipAt(s: seq<Message>, i: nat)
    requires i < |s| && !IsCaller(s[i])
    ensures PassTwo(s[i..]) == (if s[i].role == Tool then [] else [s[i]]) + PassTwo(s[i + 1..])
  {
    DropDrop(s, i, 1);
    PassTwoSkip(s[i..]);
  }

  /** The two-pass filter computes `Sanitized`. */
  method SanitizeHistory(history: seq<Message>) returns (final: seq<Message>)
    ensures final == Sanitized(history)
    ensures Normal(final, false)
  {
    SanitizedIsNormal(history);
    if |history| == 0 {
      return history;
    }
    var sanitized := RunPassOne(history);
    final := RunPassTwo(sanitized);
  }
}
