/** The `groupedTimeSlots` getter: filter, then fold the surviving slots into
    a dictionary keyed by the date part of `start_time`. Each fold step pushes
    the slot onto its group and then reverses the group in place. */
module GroupedView {
  import opened JsValues
  import opened TimeSlotTypes
  import opened Seqs
  import opened Strings
  import opened Totals
  import opened SlotFilter

  /** Every start_time is a string, so `split` can be called on each. */
  predicate AllText(s: seq<TimeSlot>) {
    forall i :: 0 <= i < |s| ==> s[i].start_time.Str?
  }

  /** `slot.start_time.split('T')[0]`: the date part, everything before the
      first 'T' of the start time. */
  function Key(s: TimeSlot): (k: string)
    requires s.start_time.Str?
    ensures StartsWith(s.start_time.s, k) && 'T' !in k
    ensures |k| < |s.start_time.s| ==> s.start_time.s[|k|] == 'T'
  {
    DateKey(s.start_time.s)
  }

  // ---- one group: push then reverse ----

  /** The group after the fold has met xs in this order: each step is
      `g := reverse(g + [x])`. */
  function PushReverse(xs: seq<TimeSlot>): (g: seq<TimeSlot>)
    ensures |g| == |xs|
  {
    if xs == [] then []
    else Reverse(PushReverse(xs[..|xs| - 1]) + [xs[|xs| - 1]])
  }

  /** Two steps of the fold put the newest slot first and the one before it last. */
  lemma {:induction false} PushReverseTwoSteps(xs: seq<TimeSlot>)
    requires |xs| >= 2
    ensures PushReverse(xs) == [xs[|xs| - 1]] + PushReverse(xs[..|xs| - 2]) + [xs[|xs| - 2]]
  {
    var n := |xs|;
    var p, pp := xs[..n - 1], xs[..n - 2];
    var older := PushReverse(pp);
    assert p[..|p| - 1] == pp;
    calc {
      PushReverse(xs);
      Reverse(PushReverse(p) + [xs[n - 1]]);
      { ReverseAppend(PushReverse(p), xs[n - 1]); }
      [xs[n - 1]] + Reverse(PushReverse(p));
      [xs[n - 1]] + Reverse(Reverse(older + [xs[n - 2]]));
      { ReverseInvolution(older + [xs[n - 2]]); }
      [xs[n - 1]] + (older + [xs[n - 2]]);
    }
  }

  /** The order the fold leaves in a group of n slots: the slots met at
      positions n-1, n-3, ... (newest first), then those at the other
      positions in the order they were met. */
  lemma {:induction false} PushReverseAt(xs: seq<TimeSlot>, j: nat)
    requires j < |xs|
    ensures PushReverse(xs)[j] == if 2 * j < |xs| then xs[|xs| - 1 - 2 * j] else xs[2 * j - |xs|]
    decreases |xs|
  {
    var n := |xs|;
    if n >= 2 {
      PushReverseTwoSteps(xs);
      var pp := xs[..n - 2];
      if 0 < j < n - 1 {
        PushReverseAt(pp, j - 1);
      }
    }
  }

  /** Inputs a, b, c give [c, a, b]. */
  lemma {:induction false} PushReverseThree(a: TimeSlot, b: TimeSlot, c: TimeSlot)
    ensures PushReverse([a, b, c]) == [c, a, b]
  {
    PushReverseTwoSteps([a, b, c]);
    assert [a, b, c][..1] == [a];
  }

  /** The group is not the reversed encounter order once it holds three
      slots whose first two differ. */
  lemma {:induction false} PushReverseIsNotReverse(a: TimeSlot, b: TimeSlot, c: TimeSlot)
    requires a != b
    ensures PushReverse([a, b, c]) != Reverse([a, b, c])
  {
    PushReverseThree(a, b, c);
    assert Reverse([a, b, c])[1] == b;
  }

  /** The group holds each slot exactly as often as the fold met it. */
  lemma {:induction false} PushReverseMultiset(xs: seq<TimeSlot>)
    ensures multiset(PushReverse(xs)) == multiset(xs)
  {
    if xs != [] {
      var p := xs[..|xs| - 1];
      PushReverseMultiset(p);
      ReverseMultiset(PushReverse(p) + [xs[|xs| - 1]]);
      assert xs == p + [xs[|xs| - 1]];
    }
  }

  // ---- the whole dictionary ----

  /** The slots of f whose date key is k, in the order of f. */
  function WithKey(f: seq<TimeSlot>, k: string): (r: seq<TimeSlot>)
    requires AllText(f)
    ensures forall i :: 0 <= i < |r| ==> r[i].start_time.Str? && Key(r[i]) == k && r[i] in f
    ensures r != [] <==> exists i :: 0 <= i < |f| && Key(f[i]) == k
  {
    if f == [] then []
    else
      var p := f[..|f| - 1];
      assert forall i :: 0 <= i < |p| ==> p[i] == f[i];
      WithKey(p, k) + if Key(f[|f| - 1]) == k then [f[|f| - 1]] else []
  }

  /** The reduce of lines 85 to 96, from an empty dictionary. */
  function GroupInto(f: seq<TimeSlot>): map<string, seq<TimeSlot>>
    requires AllText(f)
  {
    if f == [] then map[]
    else
      var g := GroupInto(f[..|f| - 1]);
      var s := f[|f| - 1];
      var k := Key(s);
      g[k := Reverse((if k in g then g[k] else []) + [s])]
  }

  /** One more step of the reduce. */
  lemma {:induction false} GroupIntoStep(f: seq<TimeSlot>, i: nat)
    requires i < |f| && AllText(f[..i]) && f[i].start_time.Str?
    ensures AllText(f[..i + 1])
    ensures var g := GroupInto(f[..i]);
      GroupInto(f[..i + 1]) == g[Key(f[i]) := Reverse((if Key(f[i]) in g then g[Key(f[i])] else []) + [f[i]])]
  {
    assert f[..i + 1][..i] == f[..i];
  }

  /** Each group is the push-then-reverse fold of the slots with its key, and
      a key is present exactly when some slot has it. */
  lemma {:induction false} GroupIntoAt(f: seq<TimeSlot>, k: string)
    requires AllText(f)
    ensures k in GroupInto(f) <==> WithKey(f, k) != []
    ensures k in GroupInto(f) ==> GroupInto(f)[k] == PushReverse(WithKey(f, k))
  {
    if f != [] {
      var p := f[..|f| - 1];
      var s := f[|f| - 1];
      GroupIntoAt(p, k);
      var g := GroupInto(p);
      var w := WithKey(p, k);
      if Key(s) == k {
        assert WithKey(f, k) == w + [s];
        assert (w + [s])[..|w + [s]| - 1] == w;
        assert PushReverse(w + [s]) == Reverse(PushReverse(w) + [s]);
        assert (if k in g then g[k] else []) == PushReverse(w);
        assert GroupInto(f)[k] == Reverse((if k in g then g[k] else []) + [s]);
      } else {
        assert WithKey(f, k) == w;
        assert GroupInto(f) == g[Key(s) := Reverse((if Key(s) in g then g[Key(s)] else []) + [s])];
      }
    }
  }

  /** The number of slots in each group. */
  function Sizes(g: map<string, seq<TimeSlot>>): (m: map<string, nat>)
    ensures m.Keys == g.Keys
    ensures forall k :: k in m ==> m[k] == |g[k]|
  {
    map k | k in g :: |g[k]|
  }

  /** The group sizes add up to the number of slots folded. */
  lemma {:induction false} GroupIntoTotal(f: seq<TimeSlot>)
    requires AllText(f)
    ensures Total(Sizes(GroupInto(f))) == |f|
  {
    if f != [] {
      var p := f[..|f| - 1];
      var g := GroupInto(p);
      var s := f[|f| - 1];
      var k := Key(s);
      var v := Reverse((if k in g then g[k] else []) + [s]);
      GroupIntoTotal(p);
      assert Sizes(g[k := v]) == Sizes(g)[k := |v|];
      TotalUpdate(Sizes(g), k, |v|);
    }
  }

  // ---- the getter ----

  /** What `groupedTimeSlots` returns for the given state, or the TypeError it throws. */
  function Grouped(slots: seq<TimeSlot>, fs: Filters): Result<map<string, seq<TimeSlot>>, JsError> {
    match Filter(slots, fs)
    case Err(e) => Err(e)
    case Ok(f) => if AllText(f) then Ok(GroupInto(f)) else Err(TypeError)
  }

  /** The reduce as the code performs it: a loop over the filtered slots that
      pushes each onto its group and then reverses that group. */
  method GroupFold(f: seq<TimeSlot>) returns (r: Result<map<string, seq<TimeSlot>>, JsError>)
    ensures r == if AllText(f) then Ok(GroupInto(f)) else Err(TypeError)
  {
    var groups: map<string, seq<TimeSlot>> := map[];
    var i := 0;
    while i < |f|
      invariant 0 <= i <= |f|
      invariant AllText(f[..i])
      invariant groups == GroupInto(f[..i])
    {
      var slot := f[i];
      if !slot.start_time.Str? {
        assert !AllText(f);
        return Err(TypeError);
      }
      var date := DateKey(slot.start_time.s);
      // a missing group starts out empty
      var group := if date in groups then groups[date] else [];
      group := group + [slot];
      group := Reverse(group);
      GroupIntoStep(f, i);
      groups := groups[date := group];
      i := i + 1;
    }
    assert f[..i] == f;
    r := Ok(groups);
  }

  /** The getter: filter the store's slots, then group them. */
  method GroupedTimeSlots(slots: seq<TimeSlot>, fs: Filters) returns (r: Result<map<string, seq<TimeSlot>>, JsError>)
    ensures r == Grouped(slots, fs)
  {
    var filtered := Filter(slots, fs);
    if filtered.Err? {
      return Err(filtered.error);
    }
    r := GroupFold(filtered.value);
  }

  // ---- what the getter promises ----

  /** The getter throws exactly when some slot without a string start_time is
      either checked by a date filter or passes the colour filter. */
  lemma {:induction false} GroupedThrows(slots: seq<TimeSlot>, fs: Filters)
    ensures Grouped(slots, fs).Err? <==>
      exists i :: 0 <= i < |slots| && !slots[i].start_time.Str? && (fs.date != "" || ColorMatches(slots[i], fs.color))
  {
    if Filter(slots, fs).Ok? {
      var f := Filter(slots, fs).value;
      if !AllText(f) {
        var i :| 0 <= i < |f| && !f[i].start_time.Str?;
        FilterKeeps(slots, fs, f[i]);
        var j :| 0 <= j < |slots| && slots[j] == f[i];
      }
      if exists i :: 0 <= i < |slots| && !slots[i].start_time.Str? && (fs.date != "" || ColorMatches(slots[i], fs.color)) {
        var i :| 0 <= i < |slots| && !slots[i].start_time.Str? && (fs.date != "" || ColorMatches(slots[i], fs.color));
        FilterKeeps(slots, fs, slots[i]);
      }
    }
  }

  /** A slot in a group is one of the folded slots with that key. */
  lemma GroupMemberHasKey(f: seq<TimeSlot>, k: string, s: TimeSlot)
    requires AllText(f) && k in GroupInto(f) && s in GroupInto(f)[k]
    ensures s in f && s.start_time.Str? && Key(s) == k
  {
    GroupIntoAt(f, k);
    PushReverseMultiset(WithKey(f, k));
    assert s in multiset(GroupInto(f)[k]);
    var w := WithKey(f, k);
    var i :| 0 <= i < |w| && w[i] == s;
  }

  /** Every slot of every group passes both filters, comes from the store,
      and sits under its own date key. */
  ghost predicate GroupsSound(g: map<string, seq<TimeSlot>>, slots: seq<TimeSlot>, fs: Filters) {
    forall k, s :: k in g && s in g[k] ==>
      s in slots && Passes(s, fs) && s.start_time.Str? && Key(s) == k
  }

  lemma MemberSound(slots: seq<TimeSlot>, fs: Filters, k: string, s: TimeSlot)
    requires Filter(slots, fs).Ok? && AllText(Filter(slots, fs).value)
    requires k in GroupInto(Filter(slots, fs).value) && s in GroupInto(Filter(slots, fs).value)[k]
    ensures s in slots && Passes(s, fs) && s.start_time.Str? && Key(s) == k
  {
    GroupMemberHasKey(Filter(slots, fs).value, k, s);
    FilterKeeps(slots, fs, s);
  }

  lemma {:induction false} GroupedSound(slots: seq<TimeSlot>, fs: Filters)
    requires Grouped(slots, fs).Ok?
    ensures GroupsSound(Grouped(slots, fs).value, slots, fs)
  {
    assert Filter(slots, fs).Ok? && AllText(Filter(slots, fs).value);
    var g := GroupInto(Filter(slots, fs).value);
    assert Grouped(slots, fs).value == g;
    forall k, s | k in g && s in g[k]
      ensures s in slots && Passes(s, fs) && s.start_time.Str? && Key(s) == k
    {
      MemberSound(slots, fs, k, s);
    }
    assert GroupsSound(g, slots, fs);
  }

  /** Every slot that passes the filters appears in the group of its date key. */
  ghost predicate GroupsComplete(g: map<string, seq<TimeSlot>>, slots: seq<TimeSlot>, fs: Filters) {
    forall s :: s in slots && Passes(s, fs) ==>
      s.start_time.Str? && Key(s) in g && s in g[Key(s)]
  }

  lemma {:induction false} GroupedComplete(slots: seq<TimeSlot>, fs: Filters)
    requires Grouped(slots, fs).Ok?
    ensures GroupsComplete(Grouped(slots, fs).value, slots, fs)
  {
    var f := Filter(slots, fs).value;
    var g := GroupInto(f);
    assert Grouped(slots, fs).value == g;
    forall s | s in slots && Passes(s, fs)
      ensures s.start_time.Str? && Key(s) in g && s in g[Key(s)]
    {
      FilterKeeps(slots, fs, s);
      var i :| 0 <= i < |f| && f[i] == s;
      GroupIntoAt(f, Key(s));
      var w := WithKey(f, Key(s));
      WithKeyComplete(f, i);
      PushReverseMultiset(w);
      assert s in multiset(w);
    }
    assert GroupsComplete(g, slots, fs);
  }

  lemma {:induction false} WithKeyComplete(f: seq<TimeSlot>, i: nat)
    requires AllText(f) && i < |f|
    ensures f[i] in WithKey(f, Key(f[i]))
  {
    var p := f[..|f| - 1];
    if i < |f| - 1 {
      assert p[i] == f[i];
      WithKeyComplete(p, i);
    }
  }

  /** The group sizes add up to the number of slots that pass the filter. */
  lemma {:induction false} GroupedTotal(slots: seq<TimeSlot>, fs: Filters)
    requires Grouped(slots, fs).Ok?
    ensures Total(Sizes(Grouped(slots, fs).value)) == |Filter(slots, fs).value|
  {
    GroupIntoTotal(Filter(slots, fs).value);
  }

  /** Within each group, the order is the push-then-reverse fold of the
      passing slots with that key, taken in store order. */
  lemma {:induction false} GroupedOrder(slots: seq<TimeSlot>, fs: Filters, k: string)
    requires Grouped(slots, fs).Ok?
    requires k in Grouped(slots, fs).value
    ensures var f := Filter(slots, fs).value;
      Grouped(slots, fs).value[k] == PushReverse(WithKey(f, k))
  {
    GroupIntoAt(Filter(slots, fs).value, k);
  }

  /** A colour filter that no slot matches yields an empty dictionary, unless
      a date filter is set and some start_time is not a string. */
  lemma {:induction false} GroupedNoColorMatch(slots: seq<TimeSlot>, fs: Filters)
    requires fs.color != ""
    requires forall i :: 0 <= i < |slots| ==> slots[i].category != Str(fs.color)
    ensures Grouped(slots, fs) ==
      if exists i :: 0 <= i < |slots| && FilterThrows(slots[i], fs) then Err(TypeError) else Ok(map[])
  {
    if Filter(slots, fs).Ok? {
      var f := Filter(slots, fs).value;
      forall x
        ensures multiset(f)[x] == 0
      {
        if x in slots {
          var i :| 0 <= i < |slots| && slots[i] == x;
          assert !Passes(x, fs);
        }
      }
      assert multiset(f) == multiset{};
      assert |f| == |multiset(f)| == 0;
      assert Grouped(slots, fs) == Ok(GroupInto([]));
    } else {
      assert Filter(slots, fs).error == TypeError;
    }
  }
}
