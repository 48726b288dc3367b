/** Values shared by the tour editor, its form and table components, and the
    lookup every one of them uses: the first element that matches. */
module Common {

  datatype Option<+T> = None | Some(value: T)

  /** The JavaScript `a || d` on an optional text: the text when it is present
      and not empty (empty text and a missing field are both falsy), else `d`. */
  function OrText(a: Option<string>, d: string): string
  {
    if a.Some? && a.value != "" then a.value else d
  }

  /** A list field that may be missing (or, for a field read with
      `Array.isArray`, not an array): `list || []`, the list or else none. */
  function ListOrEmpty<T>(list: Option<seq<T>>): (r: seq<T>)
    ensures list.Some? ==> r == list.value
    ensures list.None? ==> r == []
  {
    if list.Some? then list.value else []
  }

  /** Index of the first element of `s` that satisfies `p`: what
      `Array.prototype.find` returns the element of, and `findIndex` the
      index of (None standing for `undefined` and for -1). */
  function FindIndex<T>(s: seq<T>, p: T -> bool): (r: Option<nat>)
    ensures r.Some? ==> r.value < |s| && p(s[r.value])
    ensures r.Some? ==> forall j :: 0 <= j < r.value ==> !p(s[j])
    ensures r.None? ==> forall j :: 0 <= j < |s| ==> !p(s[j])
  {
    if s == [] then None
    else if p(s[0]) then Some(0)
    else match FindIndex(s[1..], p)
      case None => None
      case Some(k) => Some(k + 1)
  }

  /** The elements of `s` that `keep` accepts, in order: `Array.prototype.filter`,
      and the rows a SQL `WHERE` keeps. */
  function Filter<T(==,!new)>(s: seq<T>, keep: T -> bool): (r: seq<T>)
    ensures |r| <= |s|
    ensures forall x :: x in r <==> x in s && keep(x)
  {
    if s == [] then []
    else
      assert forall x :: x in s <==> x == s[0] || x in s[1..];
      (if keep(s[0]) then [s[0]] else []) + Filter(s[1..], keep)
  }

  /** Filtering a non-empty sequence: its head if kept, then the filtered tail. */
  lemma FilterCons<T(!new)>(s: seq<T>, keep: T -> bool)
    requires s != []
    ensures Filter(s, keep) == (if keep(s[0]) then [s[0]] else []) + Filter(s[1..], keep)
  {
  }

  /** Filtering a concatenation filters each part. */
  lemma {:induction false} FilterConcat<T(!new)>(a: seq<T>, b: seq<T>, keep: T -> bool)
    ensures Filter(a + b, keep) == Filter(a, keep) + Filter(b, keep)
  {
    if a == [] {
      assert a + b == b;
    } else {
      assert (a + b)[0] == a[0] && (a + b)[1..] == a[1..] + b;
      FilterConcat(a[1..], b, keep);
    }
  }

  /** A filter that accepts every element keeps the whole sequence. */
  lemma {:induction false} FilterKeepsAll<T(!new)>(s: seq<T>, keep: T -> bool)
    requires forall i :: 0 <= i < |s| ==> keep(s[i])
    ensures Filter(s, keep) == s
  {
    if s != [] {
      FilterKeepsAll(s[1..], keep);
    }
  }

  /** A filter that accepts no element keeps nothing. */
  lemma {:induction false} FilterKeepsNone<T(!new)>(s: seq<T>, keep: T -> bool)
    requires forall i :: 0 <= i < |s| ==> !keep(s[i])
    ensures Filter(s, keep) == []
  {
    if s != [] {
      FilterKeepsNone(s[1..], keep);
    }
  }

  /** Filtering twice with the same test is filtering once. */
  lemma FilterTwice<T(!new)>(s: seq<T>, keep: T -> bool)
    ensures Filter(Filter(s, keep), keep) == Filter(s, keep)
  {
    var r := Filter(s, keep);
    forall i | 0 <= i < |r| ensures keep(r[i]) {
      assert r[i] in r;
    }
    FilterKeepsAll(r, keep);
  }

  /** Appending elements the filter rejects does not change what it keeps. */
  lemma FilterIgnoresRejected<T(!new)>(u: seq<T>, v: seq<T>, keep: T -> bool)
    requires |u| <= |v| && v[..|u|] == u
    requires forall x :: x in v[|u|..] ==> !keep(x)
    ensures Filter(v, keep) == Filter(u, keep)
  {
    var tail := v[|u|..];
    assert v == u + tail;
    FilterConcat(u, tail, keep);
    forall i | 0 <= i < |tail| ensures !keep(tail[i]) {
      assert tail[i] in tail;
    }
    FilterKeepsNone(tail, keep);
    assert Filter(u, keep) + [] == Filter(u, keep);
  }

  /** Filtering with `p` and then with a stricter `q` is filtering with `q`. */
  lemma {:induction false} FilterNarrower<T(!new)>(s: seq<T>, p: T -> bool, q: T -> bool)
    requires forall x :: x in s && q(x) ==> p(x)
    ensures Filter(Filter(s, p), q) == Filter(s, q)
  {
    if s != [] {
      FilterNarrower(s[1..], p, q);
      var head: seq<T> := if p(s[0]) then [s[0]] else [];
      FilterConcat(head, Filter(s[1..], p), q);
      if !p(s[0]) {
        assert head == [];
      }
    }
  }

  /** Two tests that agree on every element of `s` keep the same elements. */
  lemma {:induction false} FilterSameTest<T(!new)>(s: seq<T>, p: T -> bool, q: T -> bool)
    requires forall x :: x in s ==> p(x) == q(x)
    ensures Filter(s, p) == Filter(s, q)
  {
    if s != [] {
      FilterSameTest(s[1..], p, q);
    }
  }

  /** Filtering with `p` and then with `q` is filtering with their conjunction. */
  lemma {:induction false} FilterBoth<T(!new)>(s: seq<T>, p: T -> bool, q: T -> bool, both: T -> bool)
    requires forall x :: x in s ==> both(x) == (p(x) && q(x))
    ensures Filter(Filter(s, p), q) == Filter(s, both)
  {
    if s != [] {
      FilterBoth(s[1..], p, q, both);
      var head: seq<T> := if p(s[0]) then [s[0]] else [];
      FilterConcat(head, Filter(s[1..], p), q);
      if !p(s[0]) {
        assert head == [];
      }
    }
  }

  /** No two positions of `s` hold elements with the same key. */
  predicate KeysDistinct<T, K(==)>(s: seq<T>, key: T -> K)
  {
    forall i, j :: 0 <= i < j < |s| ==> key(s[i]) != key(s[j])
  }

  /** A filter keeps keys distinct. */
  lemma {:induction false} FilterKeepsKeysDistinct<T(!new), K>(s: seq<T>, keep: T -> bool, key: T -> K)
    requires KeysDistinct(s, key)
    ensures KeysDistinct(Filter(s, keep), key)
  {
    if s != [] {
      FilterKeepsKeysDistinct(s[1..], keep, key);
      var rest := Filter(s[1..], keep);
      forall x | x in rest ensures key(x) != key(s[0]) {
        var j :| 0 <= j < |s[1..]| && s[1..][j] == x;
        assert s[j + 1] == x;
      }
      var r := Filter(s, keep);
      if keep(s[0]) {
        forall i, j | 0 <= i < j < |r| ensures key(r[i]) != key(r[j]) {
          if i == 0 {
            assert r[j] == rest[j - 1] && rest[j - 1] in rest;
          } else {
            assert r[i] == rest[i - 1] && r[j] == rest[j - 1];
          }
        }
      }
    }
  }

  /** Two sequences with distinct keys and no key in common have distinct
      keys together. */
  lemma KeysDistinctConcat<T, K>(a: seq<T>, b: seq<T>, key: T -> K)
    requires KeysDistinct(a, key) && KeysDistinct(b, key)
    requires forall i, j :: 0 <= i < |a| && 0 <= j < |b| ==> key(a[i]) != key(b[j])
    ensures KeysDistinct(a + b, key)
  {
    forall i, j | 0 <= i < j < |a + b| ensures key((a + b)[i]) != key((a + b)[j]) {
      if j < |a| {
      } else if i < |a| {
        assert key(a[i]) != key(b[j - |a|]);
      } else {
        assert key(b[i - |a|]) != key(b[j - |a|]);
      }
    }
  }

  /** A weekday id as the day selector's DAYS table lists it. */
  type DayId = int

  /** One entry of DAYS: an id and the caption shown for it (its `label`). */
  datatype DayInfo = DayInfo(id: DayId, caption: string)

  /** One pickup-time row of the tour form. `period` and `isActive` are not
      in a freshly added row; they appear once the form sets them. */
  datatype PickupTime = PickupTime(
    hour: string,
    minute: string,
    region: string,
    area: string,
    period: Option<string>,
    isActive: Option<bool>)

  /** The row `{ hour: '', minute: '', region: '', area: '' }`. */
  const BlankPickupTime := PickupTime("", "", "", "", None, None)

  /** One priced add-on of a tour, as the form edits it. */
  datatype TourOption = TourOption(name: string, price: string)

  /** A tour as the editor holds it, both as the form draft and as an element
      of the created-tours list. `operatorId` is absent until a submit
      resolves the operator. */
  datatype Tour = Tour(
    tourName: string,
    operator: string,
    operatorId: Option<string>,
    bolgeId: seq<string>,
    options: seq<TourOption>,
    pickupTimes: seq<PickupTime>,
    adultPrice: string,
    childPrice: string,
    selectedDays: seq<DayId>,
    isActive: bool)

  /** An operator company as the providers list formats it. */
  datatype Company = Company(alphanumericId: string, companyName: string, phoneNumber: string, status: bool)

  /** One entry of TIME_PERIODS: a period value and its badge caption (its `label`). */
  datatype PeriodChoice = PeriodChoice(value: string, caption: string)

  /** The period values "1" to "10". */
  const PeriodValues: seq<string> := ["1", "2", "3", "4", "5", "6", "7", "8", "9", "10"]

  /** TIME_PERIODS: the ten pickup periods, in order, each labelled
      "<value>. PERIYOT". */
  const TimePeriods: seq<PeriodChoice> := Labelled(PeriodValues)

  /** Each value with the caption "<value>. PERIYOT". */
  function Labelled(values: seq<string>): seq<PeriodChoice>
  {
    seq(|values|, i requires 0 <= i < |values| => PeriodChoice(values[i], values[i] + ". PERIYOT"))
  }
}
