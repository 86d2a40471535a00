/** Attribute names of a Signal and the way its payload keys are chosen:
    Python's `dir()` lists an object's attribute names once each, in the
    order of Python's `<` on `str`; the payload keeps those of them that are
    on a fixed whitelist, in that order. */
module Names {

  /** Python's `a < b` on `str`: code point by code point, and a proper
      prefix comes first. */
  predicate Less(a: string, b: string)
  {
    if a == [] then b != []
    else if b == [] then false
    else if a[0] != b[0] then a[0] < b[0]
    else Less(a[1..], b[1..])
  }

  lemma {:induction false} LessIrreflexive(a: string)
    ensures !Less(a, a)
  {
    if a != [] {
      LessIrreflexive(a[1..]);
    }
  }

  lemma {:induction false} LessTransitive(a: string, b: string, c: string)
    requires Less(a, b) && Less(b, c)
    ensures Less(a, c)
  {
    if a != [] && a[0] == b[0] && b[0] == c[0] {
      LessTransitive(a[1..], b[1..], c[1..]);
    }
  }

  lemma {:induction false} LessTotal(a: string, b: string)
    requires a != b
    ensures Less(a, b) || Less(b, a)
  {
    if a != [] && b != [] && a[0] == b[0] {
      assert a == [a[0]] + a[1..] && b == [b[0]] + b[1..];
      LessTotal(a[1..], b[1..]);
    }
  }

  /** The names a sequence holds, forgetting order and repetition. */
  function Elems(s: seq<string>): set<string>
  {
    set x | x in s
  }

  lemma ElemsAppend(a: seq<string>, b: seq<string>)
    ensures Elems(a + b) == Elems(a) + Elems(b)
  {
  }

  lemma ElemsEmpty(s: seq<string>)
    ensures Elems(s) == {} <==> s == []
  {
    if s != [] {
      assert s[0] in Elems(s);
    }
  }

  /** Every name comes before every later one: sorted, with no repeats. */
  predicate StrictlySorted(s: seq<string>)
  {
    forall i, j :: 0 <= i < j < |s| ==> Less(s[i], s[j])
  }

  lemma HeadIsLeast(s: seq<string>)
    requires StrictlySorted(s) && s != []
    ensures forall y :: y in s[1..] ==> Less(s[0], y)
  {
    forall y | y in s[1..] ensures Less(s[0], y) {
      var k :| 0 <= k < |s[1..]| && s[1..][k] == y;
      assert s[k + 1] == y;
    }
  }

  /** Adds one name to a strictly sorted sequence, keeping it strictly sorted. */
  function Insert(x: string, s: seq<string>): (r: seq<string>)
    requires StrictlySorted(s)
    ensures StrictlySorted(r)
    ensures Elems(r) == Elems(s) + {x}
    decreases |s|
  {
    if s == [] then [x]
    else if x == s[0] then s
    else if Less(x, s[0]) then
      HeadIsLeast(s);
      assert forall y :: y in s[1..] ==> Less(x, y) by {
        forall y | y in s[1..] ensures Less(x, y) {
          LessTransitive(x, s[0], y);
        }
      }
      assert s == [s[0]] + s[1..];
      [x] + s
    else
      LessTotal(x, s[0]);
      HeadIsLeast(s);
      var rest := Insert(x, s[1..]);
      assert forall y :: y in rest ==> Less(s[0], y) by {
        forall y | y in rest ensures Less(s[0], y) {
          assert y in Elems(rest);
        }
      }
      assert s == [s[0]] + s[1..];
      ElemsAppend([s[0]], rest);
      ElemsAppend([s[0]], s[1..]);
      [s[0]] + rest
  }

  /** `dir()`: the attribute names, each once, in ascending order. */
  function Dir(names: seq<string>): (r: seq<string>)
    ensures StrictlySorted(r)
    ensures Elems(r) == Elems(names)
  {
    if names == [] then []
    else
      assert names == [names[0]] + names[1..];
      Insert(names[0], Dir(names[1..]))
  }

  /** `[n for n in names if n in keep]`. */
  function Filter(names: seq<string>, keep: set<string>): (r: seq<string>)
    ensures Elems(r) == Elems(names) * keep
  {
    if names == [] then []
    else
      assert names == [names[0]] + names[1..];
      ElemsAppend([names[0]], names[1..]);
      ElemsAppend(if names[0] in keep then [names[0]] else [], Filter(names[1..], keep));
      (if names[0] in keep then [names[0]] else []) + Filter(names[1..], keep)
  }

  lemma {:induction false} FilterKeepsOrder(names: seq<string>, keep: set<string>)
    requires StrictlySorted(names)
    ensures StrictlySorted(Filter(names, keep))
  {
    if names != [] {
      FilterKeepsOrder(names[1..], keep);
      HeadIsLeast(names);
      var rest := Filter(names[1..], keep);
      forall y | y in rest ensures Less(names[0], y) {
        assert y in Elems(rest);
      }
    }
  }

  /** A strictly sorted sequence is determined by the names it holds. */
  lemma {:induction false} SortedUnique(a: seq<string>, b: seq<string>)
    requires StrictlySorted(a) && StrictlySorted(b)
    requires Elems(a) == Elems(b)
    ensures a == b
  {
    ElemsEmpty(a);
    ElemsEmpty(b);
    if a != [] && b != [] {
      HeadIsLeast(a);
      HeadIsLeast(b);
      assert a == [a[0]] + a[1..] && b == [b[0]] + b[1..];
      if a[0] != b[0] {
        assert a[0] in Elems(b) && b[0] in Elems(a);
        LessTransitive(a[0], b[0], a[0]);
        LessIrreflexive(a[0]);
      }
      LessIrreflexive(a[0]);
      assert Elems(a[1..]) == Elems(a) - {a[0]};
      assert Elems(b[1..]) == Elems(b) - {b[0]};
      SortedUnique(a[1..], b[1..]);
    }
  }

  /** The attributes a payload may carry (`field_names`). */
  const FieldNames: set<string> :=
    {"zoneId", "color", "effect", "pid", "clientName", "message", "name"}

  /** The same names in the order `dir()` lists them. */
  const FieldOrder: seq<string> :=
    ["clientName", "color", "effect", "message", "name", "pid", "zoneId"]

  /** `[field for field in dir(self) if field in field_names]`. */
  function PayloadKeys(attributes: seq<string>): seq<string>
  {
    Filter(Dir(attributes), FieldNames)
  }

  lemma FieldOrderNames()
    ensures Elems(FieldOrder) == FieldNames
  {
  }

  lemma FieldOrderSorted()
    ensures StrictlySorted(FieldOrder)
  {
    var s := FieldOrder;
    assert Less(s[0], s[1]) && Less(s[1], s[2]) && Less(s[2], s[3]);
    assert Less(s[3], s[4]) && Less(s[4], s[5]) && Less(s[5], s[6]);
    forall i, j | 0 <= i < j < |s| ensures Less(s[i], s[j]) {
      var k := i;
      while k + 1 < j
        invariant i <= k < j && (k == i || Less(s[i], s[k]))
      {
        if k > i { LessTransitive(s[i], s[k], s[k + 1]); }
        k := k + 1;
      }
      if k > i { LessTransitive(s[i], s[k], s[j]); }
    }
  }

  /** Whatever other attributes an object has, as long as it has every
      whitelisted one its payload keys are exactly the whitelist, in `dir()`
      order; no other attribute name is ever a payload key. */
  lemma PayloadKeysAreFieldOrder(attributes: seq<string>)
    requires FieldNames <= Elems(attributes)
    ensures PayloadKeys(attributes) == FieldOrder
  {
    FilterKeepsOrder(Dir(attributes), FieldNames);
    FieldOrderSorted();
    FieldOrderNames();
    SortedUnique(PayloadKeys(attributes), FieldOrder);
  }
}
