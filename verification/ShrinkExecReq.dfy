/**
 ShrinkExecReq (client/compile_task.cc): inputs are shuffled, embedded contents are dropped
 once a mebibyte of them has gone by, and the inputs are sorted by file name.
 */
module ShrinkExecReq {
  import opened Basics
  import Sorting

  /** A FileBlob: embedded bytes, if any, and the rest. */
  datatype Blob = Blob(content: Option<string>, rest: string)

  datatype Input = Input(filename: string, content: Option<Blob>)

  const EmbeddedThreshold := 1024 * 1024

  predicate Embedded(x: Input) {
    x.content.Some? && x.content.value.content.Some?
  }

  function Size(x: Input): nat {
    if Embedded(x) then |x.content.value.content.value| else 0
  }

  function Cleared(x: Input): Input {
    x.(content := None)
  }

  function Total(s: seq<Input>): nat {
    if s == [] then 0 else Size(s[0]) + Total(s[1..])
  }

  function Largest(s: seq<Input>): nat {
    if s == [] then 0 else if Size(s[0]) > Largest(s[1..]) then Size(s[0]) else Largest(s[1..])
  }

  // ---------------------------------------------------------------- dropping contents

  /** The inputs after the loop, when `total` bytes have been embedded before. */
  function Dropped(s: seq<Input>, total: nat): seq<Input> {
    if s == [] then []
    else if !Embedded(s[0]) then [s[0]] + Dropped(s[1..], total)
    else if total >= EmbeddedThreshold then [Cleared(s[0])] + Dropped(s[1..], total)
    else [s[0]] + Dropped(s[1..], total + Size(s[0]))
  }

  /** How many contents the loop clears. */
  function Drops(s: seq<Input>, total: nat): nat {
    if s == [] then 0
    else if !Embedded(s[0]) then Drops(s[1..], total)
    else if total >= EmbeddedThreshold then 1 + Drops(s[1..], total)
    else Drops(s[1..], total + Size(s[0]))
  }

  /** What stays embedded is less than the threshold and the largest single content; and
      nothing is dropped before the threshold is reached. */
  lemma {:induction false} DroppedTotal(s: seq<Input>, total: nat, largest: nat)
    requires Largest(s) <= largest && total < EmbeddedThreshold + largest
    ensures total + Total(Dropped(s, total)) < EmbeddedThreshold + largest
    ensures Drops(s, total) > 0 ==> total + Total(Dropped(s, total)) >= EmbeddedThreshold
  {
    if s != [] {
      var t := if Embedded(s[0]) && total < EmbeddedThreshold then total + Size(s[0]) else total;
      DroppedTotal(s[1..], t, largest);
      var x := if Embedded(s[0]) && total >= EmbeddedThreshold then Cleared(s[0]) else s[0];
      assert Dropped(s, total) == [x] + Dropped(s[1..], t);
      assert ([x] + Dropped(s[1..], t))[1..] == Dropped(s[1..], t);
    }
  }

  /** In how many places two lists of inputs differ. */
  function Changes(a: seq<Input>, b: seq<Input>): nat
    requires |a| == |b|
  {
    if a == [] then 0 else (if a[0] == b[0] then 0 else 1) + Changes(a[1..], b[1..])
  }

  /** Which contents go, outright: exactly those before which the embedded contents, dropped
      or not, already reach the threshold. */
  lemma {:induction false} DroppedExactly(s: seq<Input>, total: nat, i: int)
    requires 0 <= i < |s|
    ensures |Dropped(s, total)| == |s|
    ensures Dropped(s, total)[i]
         == if Embedded(s[i]) && total + Total(s[..i]) >= 1024 * 1024 then Cleared(s[i]) else s[i]
  {
    var drop := Embedded(s[0]) && total >= EmbeddedThreshold;
    var t := if Embedded(s[0]) && !drop then total + Size(s[0]) else total;
    DroppedInputs(s, total);
    if i > 0 {
      DroppedExactly(s[1..], t, i - 1);
      assert Dropped(s, total)[1..] == Dropped(s[1..], t);
      assert s[..i][1..] == s[1..][..i - 1];
    }
  }

  /** Input by input, only embedded contents go, and the count says how many. */
  lemma {:induction false} DroppedInputs(s: seq<Input>, total: nat)
    ensures |Dropped(s, total)| == |s|
    ensures forall i :: 0 <= i < |s| ==>
              Dropped(s, total)[i] == s[i] || (Embedded(s[i]) && Dropped(s, total)[i] == Cleared(s[i]))
    ensures Drops(s, total) == Changes(s, Dropped(s, total))
  {
    if s != [] {
      var t := if Embedded(s[0]) && total < EmbeddedThreshold then total + Size(s[0]) else total;
      DroppedInputs(s[1..], t);
      assert Dropped(s, total)[1..] == Dropped(s[1..], t);
    }
  }

  lemma NextInput(s: seq<Input>, i: int, total: nat)
    requires 0 <= i < |s|
    ensures var drop := Embedded(s[i]) && total >= EmbeddedThreshold;
            var t := if Embedded(s[i]) && !drop then total + Size(s[i]) else total;
            && Dropped(s[i..], total) == [if drop then Cleared(s[i]) else s[i]] + Dropped(s[i + 1..], t)
            && Drops(s[i..], total) == (if drop then 1 else 0) + Drops(s[i + 1..], t)
  {
    assert s[i..][1..] == s[i + 1..];
  }

  // ---------------------------------------------------------------- order of file names

  /** std::string's operator <, character by character. */
  predicate Less(a: string, b: string) {
    b != "" && (a == "" || a[0] < b[0] || (a[0] == b[0] && Less(a[1..], b[1..])))
  }

  lemma {:induction false} LessTotal(a: string, b: string)
    ensures Less(a, b) || Less(b, a) || a == b
    ensures !(Less(a, b) && Less(b, a))
  {
    if a != "" && b != "" {
      LessTotal(a[1..], b[1..]);
      assert a == [a[0]] + a[1..] && b == [b[0]] + b[1..];
    }
  }

  lemma {:induction false} LessTransitive(a: string, b: string, c: string)
    requires !Less(b, a) && !Less(c, b)
    ensures !Less(c, a)
  {
    if a != "" && b != "" && c != "" {
      if a[0] == b[0] && b[0] == c[0] { LessTransitive(a[1..], b[1..], c[1..]); }
    }
  }

  /** The order of the final sort: equal names in any order. */
  predicate ByName(a: Input, b: Input) {
    !Less(b.filename, a.filename)
  }

  lemma ByNameIsOrder()
    ensures Sorting.IsOrder(ByName)
  {
    hide Less;
    forall a: Input, b: Input
      ensures ByName(a, b) || ByName(b, a)
    {
      LessTotal(a.filename, b.filename);
    }
    forall a: Input, b: Input, c: Input | ByName(a, b) && ByName(b, c)
      ensures ByName(a, c)
    {
      LessTransitive(a.filename, b.filename, c.filename);
    }
  }

  method SortByName(s: seq<Input>) returns (r: seq<Input>)
    ensures Sorting.Sorted(ByName, r) && multiset(r) == multiset(s)
  {
    ByNameIsOrder();
    r := Sorting.Sort(ByName, s);
  }

  // ---------------------------------------------------------------- the request

  class ExecReq {
    var input: seq<Input>

    /** shuffled is the outcome of the random shuffle, any permutation. Returns how many
        inputs lost their content; all others are as before. */
    method ShrinkExecReq(shuffled: seq<Input>) returns (cleared: nat)
      requires multiset(shuffled) == multiset(input)
      modifies this
      ensures Sorting.Sorted(ByName, input) && multiset(input) == multiset(Dropped(shuffled, 0))
      ensures cleared == Drops(shuffled, 0)
    {
      hide Dropped, Drops;
      input := shuffled;
      cleared := 0;
      var total: nat := 0;
      var i := 0;
      assert shuffled[0..] == shuffled;
      while i < |input|
        invariant 0 <= i <= |input| == |shuffled| && input[i..] == shuffled[i..]
        invariant Dropped(shuffled, 0) == input[..i] + Dropped(shuffled[i..], total)
        invariant Drops(shuffled, 0) == cleared + Drops(shuffled[i..], total)
      {
        NextInput(shuffled, i, total);
        assert input[i] == input[i..][0] && input[i + 1..] == input[i..][1..];
        assert input[..i + 1] == input[..i] + [input[i]];
        if Embedded(input[i]) {
          if total >= EmbeddedThreshold {
            ghost var before := input;
            input := input[i := Cleared(input[i])];
            cleared := cleared + 1;
            assert input[..i + 1] == before[..i] + [Cleared(before[i])] && input[i + 1..] == before[i + 1..];
          } else {
            total := total + Size(input[i]);
          }
        }
        i := i + 1;
      }
      NothingDropped(total);
      assert input == Dropped(shuffled, 0);
      input := SortByName(input);
    }
  }

  lemma NothingDropped(total: nat)
    ensures Dropped([], total) == [] && Drops([], total) == 0
  {
  }

  lemma {:induction false} TotalOf(s: seq<Input>, i: int)
    requires 0 <= i < |s|
    ensures Total(s) == Size(s[i]) + Total(s[..i] + s[i + 1..])
  {
    if i > 0 {
      TotalOf(s[1..], i - 1);
      assert s[1..][..i - 1] + s[1..][i..] == (s[..i] + s[i + 1..])[1..];
    } else {
      assert s[..0] + s[1..] == s[1..];
    }
  }

  /** The total does not depend on the order. */
  lemma {:induction false} Permuted(a: seq<Input>, b: seq<Input>)
    requires multiset(a) == multiset(b)
    ensures Total(a) == Total(b)
  {
    if a == [] {
      assert |multiset(b)| == 0;
    } else {
      assert a[0] in multiset(b);
      var i :| 0 <= i < |b| && b[i] == a[0];
      assert a == [a[0]] + a[1..];
      assert b == b[..i] + [b[i]] + b[i + 1..];
      TotalOf(b, i);
      assert multiset(a[1..]) == multiset(a) - multiset{a[0]};
      Permuted(a[1..], b[..i] + b[i + 1..]);
    }
  }

  /** Whatever the shuffle does: the embedded contents that stay total less than the
      threshold plus the largest one, and reach the threshold if any was dropped; a request
      below the threshold is only sorted. */
  lemma ShrinksEnough(shuffled: seq<Input>, out: seq<Input>)
    requires multiset(out) == multiset(Dropped(shuffled, 0))
    ensures Total(out) < 1024 * 1024 + Largest(shuffled)
    ensures Drops(shuffled, 0) > 0 ==> Total(out) >= 1024 * 1024
    ensures Total(shuffled) < 1024 * 1024 ==> Drops(shuffled, 0) == 0 && multiset(out) == multiset(shuffled)
  {
    DroppedTotal(shuffled, 0, Largest(shuffled));
    Permuted(out, Dropped(shuffled, 0));
    DroppedInputs(shuffled, 0);
    DroppedLess(shuffled, 0);
    if Drops(shuffled, 0) == 0 { NoneDropped(shuffled, 0); }
  }

  lemma {:induction false} NoneDropped(s: seq<Input>, total: nat)
    requires Drops(s, total) == 0
    ensures Dropped(s, total) == s
  {
    if s != [] {
      NoneDropped(s[1..], if Embedded(s[0]) then total + Size(s[0]) else total);
      assert s == [s[0]] + s[1..];
    }
  }

  lemma {:induction false} DroppedLess(s: seq<Input>, total: nat)
    ensures Total(Dropped(s, total)) <= Total(s)
  {
    if s != [] {
      var t := if Embedded(s[0]) && total < EmbeddedThreshold then total + Size(s[0]) else total;
      DroppedLess(s[1..], t);
      assert Dropped(s, total)[1..] == Dropped(s[1..], t);
    }
  }
}
