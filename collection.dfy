/** The server's in-memory store: a stack of bands with unique ids, its
    read-only queries, which are functions of the listing, and the
    `CollectionManager` whose methods change the listing in place. */
module Collection {
  import opened Base
  import opened JavaText
  import opened Bands
  import opened Sorting

  /** The exceptions the store throws. */
  datatype StoreError = InvalidData | NoElement | EmptyCollection | AlreadyEmpty

  /** How a state-changing store operation ended. */
  datatype Status = Done | Failed(error: StoreError)

  // ---------------------------------------------------------------- ids

  predicate HasId(s: seq<MusicBand>, id: int)
  {
    exists i :: 0 <= i < |s| && s[i].id == id
  }

  /** What `checkSameId` reports: no two stored bands share an id. */
  predicate DistinctIds(s: seq<MusicBand>)
  {
    forall i, j :: 0 <= i < j < |s| ==> s[i].id != s[j].id
  }

  /** Position of the first band carrying `id`, the one `getById` returns. */
  function IndexOfId(s: seq<MusicBand>, id: int): (r: Option<nat>)
    ensures r.None? <==> !HasId(s, id)
    ensures r.Some? ==> r.value < |s| && s[r.value].id == id
    ensures r.Some? ==> forall k :: 0 <= k < r.value ==> s[k].id != id
  {
    if s == [] then None
    else if s[0].id == id then Some(0)
    else match IndexOfId(s[1..], id)
      case None =>
        assert forall k :: 0 < k < |s| ==> s[k] == s[1..][k - 1];
        None
      case Some(i) => Some(i + 1)
  }

  /** `getById`: the first band with that id, or null. */
  function GetById(s: seq<MusicBand>, id: int): (r: Option<MusicBand>)
    ensures r.None? <==> !HasId(s, id)
    ensures r.Some? ==> r.value in s && r.value.id == id
    ensures r.Some? && DistinctIds(s) ==> forall k :: 0 <= k < |s| && s[k].id == id ==> s[k] == r.value
  {
    match IndexOfId(s, id)
    case None => None
    case Some(i) => Some(s[i])
  }

  /** `checkId`: true when no stored band shares the candidate's id. */
  function CheckId(s: seq<MusicBand>, band: MusicBand): (r: bool)
    ensures r <==> !HasId(s, band.id)
  {
    if s == [] then true
    else if band.id == s[0].id then false
    else
      assert forall k :: 0 < k < |s| ==> s[k] == s[1..][k - 1];
      CheckId(s[1..], band)
  }

  /** `getFirstId`: the id at index 0 (the bottom of the stack), or 0. */
  function FirstId(s: seq<MusicBand>): (r: int)
    ensures s != [] ==> HasId(s, r)
  {
    if s == [] then 0 else s[0].id
  }

  /** Largest stored id (0 for an empty stack); no stored id exceeds it. */
  function MaxId(s: seq<MusicBand>): (r: int)
    ensures forall i :: 0 <= i < |s| ==> s[i].id <= r
  {
    if s == [] then 0
    else
      var m := MaxId(s[..|s| - 1]);
      assert forall i :: 0 <= i < |s| - 1 ==> s[i] == s[..|s| - 1][i];
      if s[|s| - 1].id > m then s[|s| - 1].id else m
  }

  // ---------------------------------------------------------------- removal on values

  /** `Vector.remove(int)`: drop position `i`, shifting later bands down. */
  function RemoveAtIndex(s: seq<MusicBand>, i: nat): (r: seq<MusicBand>)
    requires i < |s|
    ensures |r| == |s| - 1
    ensures forall k :: 0 <= k < i ==> r[k] == s[k]
    ensures forall k :: i <= k < |r| ==> r[k] == s[k + 1]
  {
    s[..i] + s[i + 1..]
  }

  /** Position of the first band equal to `x`. */
  function FirstIndexOf(s: seq<MusicBand>, x: MusicBand): (r: Option<nat>)
    ensures r.None? <==> x !in s
    ensures r.Some? ==> r.value < |s| && s[r.value] == x && x !in s[..r.value]
  {
    if s == [] then None
    else if s[0] == x then Some(0)
    else match FirstIndexOf(s[1..], x)
      case None => None
      case Some(i) => assert s[..i + 1] == [s[0]] + s[1..][..i]; Some(i + 1)
  }

  /** `Vector.remove(Object)`: drop the first band equal to `x`, if any. */
  function RemoveFirstOf(s: seq<MusicBand>, x: MusicBand): (r: seq<MusicBand>)
    ensures x !in s ==> r == s
    ensures x in s ==> |r| == |s| - 1 && multiset(r) == multiset(s) - multiset{x}
  {
    match FirstIndexOf(s, x)
    case None => s
    case Some(i) =>
      assert s == s[..i] + [s[i]] + s[i + 1..];
      s[..i] + s[i + 1..]
  }

  /** Removing the band `getById` found removes exactly its position. */
  lemma RemoveFoundBand(s: seq<MusicBand>, id: int)
    requires HasId(s, id)
    ensures RemoveFirstOf(s, GetById(s, id).value) == RemoveAtIndex(s, IndexOfId(s, id).value)
  {
    var i := IndexOfId(s, id).value;
    var j := FirstIndexOf(s, s[i]).value;
    assert s[i] in s[..i + 1];
    assert s[j].id == id;
  }

  /** With distinct ids the first band equal to the top one is the top one,
      so `removeFirst` pops the top of the stack. */
  lemma RemoveTop(s: seq<MusicBand>)
    requires s != [] && DistinctIds(s)
    ensures RemoveFirstOf(s, s[|s| - 1]) == s[..|s| - 1]
  {
    var j := FirstIndexOf(s, s[|s| - 1]).value;
    assert j == |s| - 1;
  }

  lemma {:induction false} RemoveAtIndexDistinct(s: seq<MusicBand>, i: nat)
    requires i < |s| && DistinctIds(s)
    ensures DistinctIds(RemoveAtIndex(s, i))
    ensures !HasId(RemoveAtIndex(s, i), s[i].id)
    ensures forall id :: id != s[i].id ==> (HasId(RemoveAtIndex(s, i), id) <==> HasId(s, id))
  {
    var r := RemoveAtIndex(s, i);
    forall a, b | 0 <= a < b < |r| ensures r[a].id != r[b].id {
      var a' := if a < i then a else a + 1;
      var b' := if b < i then b else b + 1;
      assert r[a] == s[a'] && r[b] == s[b'];
    }
    forall k | 0 <= k < |r| ensures r[k].id != s[i].id {
      var k' := if k < i then k else k + 1;
      assert r[k] == s[k'];
    }
    forall id | id != s[i].id && HasId(s, id) ensures HasId(r, id) {
      var k :| 0 <= k < |s| && s[k].id == id;
      var k' := if k < i then k else k - 1;
      assert r[k'] == s[k];
    }
  }

  /** `bands.remove(getById(id))`: when nothing carries the id, `remove(null)`
      finds nothing to remove. */
  function RemoveId(s: seq<MusicBand>, id: int): (r: seq<MusicBand>)
  {
    match GetById(s, id)
    case None => s
    case Some(b) => RemoveFirstOf(s, b)
  }

  /** `removeElements`: the ids removed one after the other, in list order. */
  function RemoveIds(s: seq<MusicBand>, ids: seq<int>): seq<MusicBand>
  {
    if ids == [] then s else RemoveId(RemoveIds(s, ids[..|ids| - 1]), ids[|ids| - 1])
  }

  /** The bands whose id is not listed, in stack order. */
  function Without(s: seq<MusicBand>, ids: seq<int>): (r: seq<MusicBand>)
    ensures |r| <= |s|
    ensures forall k :: 0 <= k < |r| ==> r[k].id !in ids
  {
    if s == [] then []
    else (if s[0].id in ids then [] else [s[0]]) + Without(s[1..], ids)
  }

  /** A band is kept exactly when it is stored and its id is not listed. */
  lemma {:induction false} WithoutMembers(s: seq<MusicBand>, ids: seq<int>)
    ensures forall b :: b in Without(s, ids) <==> b in s && b.id !in ids
  {
    if s != [] {
      WithoutMembers(s[1..], ids);
      assert s == [s[0]] + s[1..];
    }
  }

  /** No listed id survives, and every band whose id is not listed does. */
  lemma WithoutIds(s: seq<MusicBand>, ids: seq<int>)
    ensures forall id :: HasId(Without(s, ids), id) ==> HasId(s, id) && id !in ids
    ensures forall k :: 0 <= k < |s| && s[k].id !in ids ==> HasId(Without(s, ids), s[k].id)
  {
    var r := Without(s, ids);
    WithoutMembers(s, ids);
    forall id | HasId(r, id) ensures HasId(s, id) && id !in ids {
      var k :| 0 <= k < |r| && r[k].id == id;
      assert r[k] in s;
      var m :| 0 <= m < |s| && s[m] == r[k];
    }
    forall k | 0 <= k < |s| && s[k].id !in ids ensures HasId(r, s[k].id) {
      assert s[k] in r;
      var m :| 0 <= m < |r| && r[m] == s[k];
    }
  }

  lemma {:induction false} DistinctTail(s: seq<MusicBand>)
    requires s != []
    ensures DistinctIds(s) <==> DistinctIds(s[1..]) && !HasId(s[1..], s[0].id)
  {
    if DistinctIds(s) {
      forall k | 0 <= k < |s[1..]| ensures s[1..][k].id != s[0].id {
        assert s[1..][k] == s[k + 1];
      }
      forall a, b | 0 <= a < b < |s[1..]| ensures s[1..][a].id != s[1..][b].id {
        assert s[1..][a] == s[a + 1] && s[1..][b] == s[b + 1];
      }
    }
    if DistinctIds(s[1..]) && !HasId(s[1..], s[0].id) {
      forall i, j | 0 <= i < j < |s| ensures s[i].id != s[j].id {
        if i == 0 {
          assert s[1..][j - 1] == s[j];
        } else {
          assert s[1..][i - 1] == s[i] && s[1..][j - 1] == s[j];
        }
      }
    }
  }

  lemma {:induction false} WithoutDistinct(s: seq<MusicBand>, ids: seq<int>)
    requires DistinctIds(s)
    ensures DistinctIds(Without(s, ids))
  {
    if s != [] {
      DistinctTail(s);
      WithoutDistinct(s[1..], ids);
      var rest := Without(s[1..], ids);
      if s[0].id !in ids {
        WithoutIds(s[1..], ids);
        DistinctTail([s[0]] + rest);
        assert ([s[0]] + rest)[1..] == rest;
      }
    }
  }

  /** Removing at a position above the bottom keeps the bottom band. */
  lemma RemoveAtIndexCons(s: seq<MusicBand>, i: nat)
    requires i + 1 < |s|
    ensures RemoveAtIndex(s, i + 1) == [s[0]] + RemoveAtIndex(s[1..], i)
  {
    var a, b := RemoveAtIndex(s, i + 1), [s[0]] + RemoveAtIndex(s[1..], i);
    assert |a| == |b|;
    forall k | 0 <= k < |a| ensures a[k] == b[k] {
      if 0 < k { assert b[k] == RemoveAtIndex(s[1..], i)[k - 1]; }
    }
  }

  /** Removing an id the bottom band does not carry leaves the bottom band
      in place. */
  lemma RemoveIdCons(s: seq<MusicBand>, id: int)
    requires s != [] && s[0].id != id
    ensures RemoveId(s, id) == [s[0]] + RemoveId(s[1..], id)
  {
    var t := s[1..];
    if HasId(t, id) {
      var i := IndexOfId(t, id).value;
      assert IndexOfId(s, id) == Some(i + 1);
      RemoveFoundBand(s, id);
      RemoveFoundBand(t, id);
      RemoveAtIndexCons(s, i);
    } else {
      assert !HasId(s, id) by {
        forall k | 0 <= k < |s| ensures s[k].id != id {
          if k > 0 { assert s[k] == t[k - 1]; }
        }
      }
      assert s == [s[0]] + t;
    }
  }

  /** Removing one id from a listing with distinct ids is filtering it out. */
  lemma {:induction false} RemoveIdIsWithout(s: seq<MusicBand>, id: int)
    requires DistinctIds(s)
    ensures RemoveId(s, id) == Without(s, [id])
  {
    if s != [] {
      DistinctTail(s);
      if s[0].id == id {
        assert FirstIndexOf(s, s[0]) == Some(0);
        assert RemoveId(s, id) == s[1..];
        assert forall k :: 0 <= k < |s[1..]| ==> s[1..][k].id !in [id];
        WithoutNone(s[1..], [id]);
      } else {
        RemoveIdIsWithout(s[1..], id);
        RemoveIdCons(s, id);
      }
    }
  }

  /** Filtering ids that no band carries changes nothing. */
  lemma {:induction false} WithoutNone(s: seq<MusicBand>, ids: seq<int>)
    requires forall k :: 0 <= k < |s| ==> s[k].id !in ids
    ensures Without(s, ids) == s
  {
    if s != [] {
      WithoutNone(s[1..], ids);
    }
  }

  lemma {:induction false} WithoutTwice(s: seq<MusicBand>, ids: seq<int>, more: seq<int>)
    ensures Without(Without(s, ids), more) == Without(s, ids + more)
  {
    if s != [] {
      WithoutTwice(s[1..], ids, more);
      var rest := Without(s[1..], ids);
      assert s[0].id in ids + more <==> s[0].id in ids || s[0].id in more;
      if s[0].id in ids {
        assert Without(s, ids) == rest;
        assert Without(s, ids + more) == Without(s[1..], ids + more);
      } else {
        var t := [s[0]] + rest;
        assert Without(s, ids) == t;
        assert t[0] == s[0] && t[1..] == rest;
        if s[0].id in more {
          assert Without(t, more) == Without(rest, more);
          assert Without(s, ids + more) == Without(s[1..], ids + more);
        } else {
          assert Without(t, more) == [s[0]] + Without(rest, more);
          assert Without(s, ids + more) == [s[0]] + Without(s[1..], ids + more);
        }
      }
    }
  }

  /** `removeElements` over a listing with distinct ids removes exactly the
      bands whose id is listed, skipping ids that match nothing, and keeps
      the others in stack order. */
  lemma {:induction false} RemoveIdsIsWithout(s: seq<MusicBand>, ids: seq<int>)
    requires DistinctIds(s)
    ensures RemoveIds(s, ids) == Without(s, ids)
  {
    if ids == [] {
      WithoutNone(s, ids);
    } else {
      var init := ids[..|ids| - 1];
      var last := ids[|ids| - 1];
      RemoveIdsIsWithout(s, init);
      WithoutDistinct(s, init);
      RemoveIdIsWithout(Without(s, init), last);
      WithoutTwice(s, init, [last]);
      assert init + [last] == ids;
    }
  }

  // ---------------------------------------------------------------- swapping

  function Swap(s: seq<MusicBand>, i: nat, j: nat): (r: seq<MusicBand>)
    requires i < |s| && j < |s|
    ensures |r| == |s| && multiset(r) == multiset(s)
  {
    s[i := s[j]][j := s[i]]
  }

  lemma SwapDistinct(s: seq<MusicBand>, i: nat, j: nat)
    requires i < |s| && j < |s| && DistinctIds(s)
    ensures DistinctIds(Swap(s, i, j))
  {
    var r := Swap(s, i, j);
    forall a, b | 0 <= a < b < |r| ensures r[a].id != r[b].id {
      var a' := if a == i then j else if a == j then i else a;
      var b' := if b == i then j else if b == j then i else b;
      assert r[a] == s[a'] && r[b] == s[b'];
    }
  }

  // ---------------------------------------------------------------- queries

  /** The bands' `toString()`s in stack order. */
  function Texts(s: seq<MusicBand>, api: BandApi): (r: seq<string>)
    ensures |r| == |s|
  {
    MapSeq(s, api.text)
  }

  predicate NoNewlines(texts: seq<string>)
  {
    forall k :: 0 <= k < |texts| ==> '\n' !in texts[k]
  }

  /** `show`: every band's text in stack order, one per line, or
      EmptyCollection. Splitting the listing at line breaks gives back each
      band's text in order whenever no text holds a line break itself. */
  function Show(s: seq<MusicBand>, api: BandApi): (r: Result<string, StoreError>)
    ensures r.Err? <==> s == []
    ensures r.Err? ==> r.error == EmptyCollection
    ensures r.Ok? && NoNewlines(Texts(s, api)) ==> SplitOn(r.value, '\n') == Texts(s, api)
  {
    if s == [] then Err(EmptyCollection)
    else
      var texts := Texts(s, api);
      if NoNewlines(texts) then SplitJoin(texts, '\n'); Ok(Join(texts, "\n"))
      else Ok(Join(texts, "\n"))
  }

  /** The natural order, `compareTo(a, b) <= 0`. */
  function ByRank(api: BandApi): (MusicBand, MusicBand) -> bool
  {
    (a: MusicBand, b: MusicBand) => api.rank(a) <= api.rank(b)
  }

  /** The bands in ascending natural order, each exactly as often as stored. */
  function Ascending(s: seq<MusicBand>, api: BandApi): (r: seq<MusicBand>)
    ensures multiset(r) == multiset(s)
    ensures SortedBy(r, ByRank(api))
  {
    SortSorted(s, ByRank(api));
    Sort(s, ByRank(api))
  }

  /** `printAscend`: the texts of the bands in ascending natural order, one
      per line, or EmptyCollection. The lines are the stored bands' texts,
      each listed exactly as often as in the store. */
  function PrintAscend(s: seq<MusicBand>, api: BandApi): (r: Result<string, StoreError>)
    ensures r.Err? <==> s == []
    ensures r.Err? ==> r.error == EmptyCollection
    ensures r.Ok? ==> exists sorted ::
      multiset(sorted) == multiset(s) && SortedBy(sorted, ByRank(api)) && r.value == Join(Texts(sorted, api), "\n")
    ensures r.Ok? && NoNewlines(Texts(s, api)) ==>
      multiset(SplitOn(r.value, '\n')) == multiset(Texts(s, api))
  {
    if s == [] then Err(EmptyCollection)
    else
      var sorted := Ascending(s, api);
      var texts := Texts(sorted, api);
      MapSort(s, ByRank(api), api.text);
      assert NoNewlines(Texts(s, api)) ==> NoNewlines(texts) by {
        if NoNewlines(Texts(s, api)) {
          forall k | 0 <= k < |texts| ensures '\n' !in texts[k] {
            assert texts[k] in multiset(Texts(s, api));
          }
        }
      }
      if NoNewlines(texts) then SplitJoin(texts, '\n'); Ok(Join(texts, "\n"))
      else Ok(Join(texts, "\n"))
  }

  /** `Comparator.nullsLast(Comparator.reverseOrder())`: names in
      descending order, nulls after every name. */
  predicate NullsLastDescending(a: Option<string>, b: Option<string>)
  {
    match a
    case None => b.None?
    case Some(x) => b.None? || StrLe(b.value, x)
  }

  lemma NullsLastDescendingTotal(s: seq<Option<string>>)
    ensures TotalOn(s, NullsLastDescending)
  {
    forall i, j | 0 <= i < |s| && 0 <= j < |s|
      ensures NullsLastDescending(s[i], s[j]) || NullsLastDescending(s[j], s[i])
    {
      if s[i].Some? && s[j].Some? {
        StrLeTotal(s[i].value, s[j].value);
      }
    }
  }

  /** A null name is joined as the text "null". */
  function NameText(n: Option<string>): string
  {
    if n.None? then "null" else n.value
  }

  /** `printLabelField`: every band's label name, sorted descending with nulls
      last, one per line. There is no emptiness check: an empty store gives
      the empty text. The lines are the label names, each listed as often as
      bands carry it, in an order where no name precedes a greater one and
      no null precedes a name. */
  function PrintLabelField(s: seq<MusicBand>): (r: string)
    ensures s == [] ==> r == ""
    ensures exists sorted ::
      multiset(sorted) == multiset(MapSeq(s, LabelName))
      && SortedBy(sorted, NullsLastDescending)
      && r == Join(MapSeq(sorted, NameText), "\n")
  {
    var names := MapSeq(s, LabelName);
    NullsLastDescendingTotal(names);
    SortSorted(names, NullsLastDescending);
    Join(MapSeq(Sort(names, NullsLastDescending), NameText), "\n")
  }

  /** The bands carrying label `l`, in stack order. */
  function Members(s: seq<MusicBand>, l: Label): (r: seq<MusicBand>)
    ensures |r| <= |s|
    ensures forall k :: 0 <= k < |r| ==> r[k].recordLabel == l
  {
    if s == [] then []
    else (if s[0].recordLabel == l then [s[0]] else []) + Members(s[1..], l)
  }

  /** One group of `groupByLabel`: the label's text, its member count and
      the members' texts. */
  function GroupText(s: seq<MusicBand>, api: BandApi, l: Label): string
  {
    api.labelText(l) + ", Count: " + IntToString(|Members(s, l)|) + "\n" + Join(Texts(Members(s, l), api), "\n")
  }

  /** The grouping map's iteration order: every label of the store exactly
      once. The order itself is `HashMap`'s and is left open. */
  predicate GroupOrder(s: seq<MusicBand>, order: seq<Label>)
  {
    (forall i, j :: 0 <= i < j < |order| ==> order[i] != order[j])
    && (forall k :: 0 <= k < |s| ==> s[k].recordLabel in order)
    && (forall i :: 0 <= i < |order| ==> exists k :: 0 <= k < |s| && s[k].recordLabel == order[i])
  }

  function GroupTexts(s: seq<MusicBand>, api: BandApi, order: seq<Label>): (r: seq<string>)
    ensures |r| == |order|
  {
    if order == [] then [] else [GroupText(s, api, order[0])] + GroupTexts(s, api, order[1..])
  }

  /** `groupByLabel`: one group per label, joined by line breaks, or
      EmptyCollection. */
  function GroupByLabel(s: seq<MusicBand>, api: BandApi, order: seq<Label>): (r: Result<string, StoreError>)
    requires GroupOrder(s, order)
    ensures r.Err? <==> s == []
    ensures r.Err? ==> r.error == EmptyCollection
    ensures r.Ok? ==> |order| >= 1
  {
    if s == [] then Err(EmptyCollection)
    else
      assert s[0].recordLabel in order;
      Ok(Join(GroupTexts(s, api, order), "\n"))
  }

  function CountSum(s: seq<MusicBand>, order: seq<Label>): nat
  {
    if order == [] then 0 else |Members(s, order[0])| + CountSum(s, order[1..])
  }

  lemma {:induction false} MembersSnoc(s: seq<MusicBand>, b: MusicBand, l: Label)
    ensures |Members(s + [b], l)| == |Members(s, l)| + (if b.recordLabel == l then 1 else 0)
  {
    if s != [] {
      assert (s + [b])[1..] == s[1..] + [b];
      MembersSnoc(s[1..], b, l);
    }
  }

  lemma {:induction false} CountSumSnoc(s: seq<MusicBand>, b: MusicBand, order: seq<Label>)
    requires forall i, j :: 0 <= i < j < |order| ==> order[i] != order[j]
    ensures CountSum(s + [b], order) == CountSum(s, order) + (if b.recordLabel in order then 1 else 0)
  {
    if order != [] {
      MembersSnoc(s, b, order[0]);
      CountSumSnoc(s, b, order[1..]);
      if b.recordLabel == order[0] {
        assert b.recordLabel !in order[1..];
      }
    }
  }

  /** Group sizes add up to the store's size: every band is counted in
      exactly one group. */
  lemma {:induction false} CountsSumToSize(s: seq<MusicBand>, order: seq<Label>)
    requires forall i, j :: 0 <= i < j < |order| ==> order[i] != order[j]
    requires forall k :: 0 <= k < |s| ==> s[k].recordLabel in order
    ensures CountSum(s, order) == |s|
  {
    if s == [] {
      CountSumEmpty(order);
    } else {
      var init := s[..|s| - 1];
      CountsSumToSize(init, order);
      CountSumSnoc(init, s[|s| - 1], order);
      assert init + [s[|s| - 1]] == s;
    }
  }

  lemma {:induction false} CountSumEmpty(order: seq<Label>)
    ensures CountSum([], order) == 0
  {
    if order != [] {
      CountSumEmpty(order[1..]);
    }
  }

  lemma {:induction false} MemberPresent(s: seq<MusicBand>, k: nat, l: Label)
    requires k < |s| && s[k].recordLabel == l
    ensures |Members(s, l)| >= 1
  {
    if k > 0 {
      MemberPresent(s[1..], k - 1, l);
    }
  }

  /** `groupByLabel`'s counts: every group is non-empty, its header shows its
      member count, and the counts add up to the store's size. */
  lemma GroupCounts(s: seq<MusicBand>, order: seq<Label>)
    requires GroupOrder(s, order)
    ensures forall i :: 0 <= i < |order| ==> |Members(s, order[i])| >= 1
    ensures CountSum(s, order) == |s|
  {
    forall i | 0 <= i < |order| ensures |Members(s, order[i])| >= 1 {
      var k :| 0 <= k < |s| && s[k].recordLabel == order[i];
      MemberPresent(s, k, order[i]);
    }
    CountsSumToSize(s, order);
  }

  /** The store's labels, each once, in order of first appearance: one
      possible iteration order of the grouping map. */
  function LabelsOf(s: seq<MusicBand>): (r: seq<Label>)
    ensures GroupOrder(s, r)
  {
    if s == [] then []
    else
      var init := s[..|s| - 1];
      var l := s[|s| - 1].recordLabel;
      var rest := LabelsOf(init);
      var r := if l in rest then rest else rest + [l];
      assert forall k :: 0 <= k < |init| ==> s[k] == init[k];
      assert forall i :: 0 <= i < |rest| ==> r[i] == rest[i];
      forall i | 0 <= i < |r| ensures exists k :: 0 <= k < |s| && s[k].recordLabel == r[i] {
        if i == |rest| {
          assert s[|s| - 1].recordLabel == r[i];
        } else {
          var k :| 0 <= k < |init| && init[k].recordLabel == rest[i];
          assert s[k].recordLabel == r[i];
        }
      }
      r
  }

  // ---------------------------------------------------------------- owners

  /** Every band has an owner (`userLogin` is not null). */
  predicate AllOwned(s: seq<MusicBand>)
  {
    forall k :: 0 <= k < |s| ==> s[k].userLogin.Some?
  }

  /** The ids of the bands owned by `login`, in stack order (the `filter`
      and `map(getId)` of `clear`). */
  function OwnedIds(s: seq<MusicBand>, login: Option<string>): (r: seq<int>)
    ensures |r| <= |s|
    ensures forall id :: id in r <==> exists k :: 0 <= k < |s| && s[k].userLogin == login && s[k].id == id
  {
    if s == [] then []
    else
      var rest := OwnedIds(s[1..], login);
      assert forall k :: 0 < k < |s| ==> s[k] == s[1..][k - 1];
      (if s[0].userLogin == login then [s[0].id] else []) + rest
  }

  /** The bands not owned by `login`, in stack order. */
  function NotOwned(s: seq<MusicBand>, login: Option<string>): (r: seq<MusicBand>)
    ensures forall k :: 0 <= k < |r| ==> r[k].userLogin != login
  {
    if s == [] then []
    else (if s[0].userLogin == login then [] else [s[0]]) + NotOwned(s[1..], login)
  }

  lemma {:induction false} WithoutOwned(s: seq<MusicBand>, login: Option<string>, ids: seq<int>)
    requires forall k :: 0 <= k < |s| ==> (s[k].id in ids <==> s[k].userLogin == login)
    ensures Without(s, ids) == NotOwned(s, login)
  {
    if s != [] {
      assert forall k :: 0 <= k < |s[1..]| ==> s[1..][k] == s[k + 1];
      WithoutOwned(s[1..], login, ids);
    }
  }

  /** `clear` on a store with distinct ids: dropping the ids of the user's
      bands keeps exactly the other users' bands, in order. */
  lemma ClearKeepsOthers(s: seq<MusicBand>, login: Option<string>)
    requires DistinctIds(s)
    ensures Without(s, OwnedIds(s, login)) == NotOwned(s, login)
  {
    var ids := OwnedIds(s, login);
    forall k | 0 <= k < |s| ensures s[k].id in ids <==> s[k].userLogin == login {
      if s[k].id in ids {
        var j :| 0 <= j < |s| && s[j].userLogin == login && s[j].id == s[k].id;
        assert j == k;
      }
    }
    WithoutOwned(s, login, ids);
  }

  /** `getFirstId` names the bottom band while `removeFirst` drops the top
      one: when two or more bands with distinct ids are stored, the id the
      database is asked to delete is still in the store afterwards. */
  lemma FirstIdOutlivesRemoveFirst(s: seq<MusicBand>)
    requires |s| >= 2 && DistinctIds(s)
    ensures HasId(RemoveFirstOf(s, s[|s| - 1]), FirstId(s))
  {
    RemoveTop(s);
    assert s[..|s| - 1][0] == s[0];
  }

  const InfoType: string := "Stack"

  /** `info`: the collection type, the creation date and the size on three
      lines. */
  function Info(s: seq<MusicBand>, date: string): (r: string)
    ensures '\n' !in date ==>
      SplitOn(r, '\n') == ["Тип: " + InfoType, "Дата Создания: " + date, "Размер: " + IntToString(|s|)]
  {
    var lines := ["Тип: " + InfoType, "Дата Создания: " + date, "Размер: " + IntToString(|s|)];
    var r := lines[0] + "\n" + (lines[1] + "\n" + lines[2]);
    if '\n' in date then r
    else
      assert '\n' !in lines[0];
      assert '\n' !in lines[2] by {
        var n := IntToString(|s|);
        assert AllDigits(n);
        assert lines[2] == "Размер: " + n;
        forall k | 0 <= k < |lines[2]| ensures lines[2][k] != '\n' {
          if k >= 8 { assert lines[2][k] == n[k - 8]; }
        }
      }
      assert lines[1..][1..] == [lines[2]];
      assert Join(lines[1..], "\n") == lines[1] + "\n" + lines[2];
      assert Join(lines, "\n") == r;
      SplitJoin(lines, '\n');
      r
  }

  /** The size line of `info` reads back as the number of stored bands. */
  lemma InfoSize(s: seq<MusicBand>, date: string)
    requires |s| <= INT_MAX
    ensures var r := Info(s, date);
      |r| >= |"Размер: " + IntToString(|s|)|
      && ParseInt(r[|r| - |IntToString(|s|)|..]) == Some(|s|)
  {
    var n := IntToString(|s|);
    var r := Info(s, date);
    assert r == "Тип: " + InfoType + "\n" + ("Дата Создания: " + date + "\n" + ("Размер: " + n));
    assert r[|r| - |n|..] == n;
    ParseIntToString(|s|, INT_MIN, INT_MAX);
  }

  // ---------------------------------------------------------------- the manager

  class CollectionManager {
    /** The stack, bottom first. */
    var bands: seq<MusicBand>
    /** `LocalDate` of creation as text. */
    var date: string
    /** `MusicBand.idcounter`, the counter that fresh ids are drawn from. */
    var idCounter: int
    /** The band class's own behaviour. */
    const api: BandApi

    constructor (today: string, counter: int, api: BandApi)
      ensures bands == [] && date == today && idCounter == counter && this.api == api
    {
      bands := [];
      date := today;
      idCounter := counter;
      this.api := api;
    }

    /** `add`: an invalid band is refused; otherwise, while its id is taken,
        the counter is bumped and becomes the band's id; then the band is
        pushed on top. */
    method Add(band: MusicBand) returns (status: Status, stored: MusicBand)
      modifies this`bands, this`idCounter
      ensures !api.isValid(band) ==>
        status == Failed(InvalidData) && bands == old(bands) && idCounter == old(idCounter)
      ensures api.isValid(band) ==> status == Done && bands == old(bands) + [stored]
      ensures api.isValid(band) ==> stored == band.(id := stored.id) && !HasId(old(bands), stored.id)
      ensures idCounter >= old(idCounter)
      ensures !HasId(old(bands), band.id) ==> stored == band && idCounter == old(idCounter)
      ensures api.isValid(band) && HasId(old(bands), band.id) ==> stored.id == idCounter > old(idCounter)
      ensures api.isValid(band) && HasId(old(bands), band.id) ==>
        forall v :: old(idCounter) < v < idCounter ==> HasId(old(bands), v)
      ensures DistinctIds(old(bands)) ==> DistinctIds(bands)
    {
      stored := band;
      if !api.isValid(band) {
        return Failed(InvalidData), stored;
      }
      ghost var bumped := false;
      ghost var top := MaxId(bands);
      while !CheckId(bands, stored)
        invariant stored == band.(id := stored.id)
        invariant idCounter >= old(idCounter)
        invariant !bumped ==> stored == band && idCounter == old(idCounter)
        invariant bumped ==> stored.id == idCounter > old(idCounter)
        invariant bumped ==> forall v :: old(idCounter) < v < idCounter ==> HasId(bands, v)
        invariant bands == old(bands)
        invariant !HasId(bands, band.id) ==> !bumped
        decreases (if idCounter <= top then top - idCounter + 1 else 0) + (if HasId(bands, stored.id) then 1 else 0)
      {
        idCounter := idCounter + 1;
        stored := stored.(id := idCounter);
        bumped := true;
      }
      ghost var before := bands;
      bands := bands + [stored];
      if DistinctIds(before) {
        forall i, j | 0 <= i < j < |bands| ensures bands[i].id != bands[j].id {
          if j == |bands| - 1 {
            assert bands[i] == before[i];
          } else {
            assert bands[i] == before[i] && bands[j] == before[j];
          }
        }
      }
      return Done, stored;
    }

    /** `checkSameId`: walks the stack collecting ids in a set and fails on
        the first id already collected. */
    method CheckSameId() returns (r: bool)
      ensures r <==> DistinctIds(bands)
    {
      var ids: set<int> := {};
      var i := 0;
      while i < |bands|
        invariant 0 <= i <= |bands|
        invariant forall id :: id in ids <==> exists k :: 0 <= k < i && bands[k].id == id
        invariant forall a, b :: 0 <= a < b < i ==> bands[a].id != bands[b].id
      {
        if bands[i].id in ids {
          return false;
        }
        ids := ids + {bands[i].id};
        i := i + 1;
      }
      return true;
    }

    /** `removeById`: NoElement when `getById` finds nothing; otherwise the
        band it found is removed. */
    method RemoveById(id: int) returns (status: Status)
      modifies this`bands
      ensures !HasId(old(bands), id) ==> status == Failed(NoElement) && bands == old(bands)
      ensures HasId(old(bands), id) ==>
        status == Done && bands == RemoveAtIndex(old(bands), IndexOfId(old(bands), id).value)
      ensures DistinctIds(old(bands)) ==> DistinctIds(bands)
      ensures DistinctIds(old(bands)) ==> !HasId(bands, id)
    {
      var band := GetById(bands, id);
      if band.None? {
        return Failed(NoElement);
      }
      RemoveFoundBand(bands, id);
      if DistinctIds(bands) {
        RemoveAtIndexDistinct(bands, IndexOfId(bands, id).value);
      }
      bands := RemoveFirstOf(bands, band.value);
      return Done;
    }

    /** `removeAt`: NoElement unless `0 <= num < size`; otherwise position
        `num` is removed and the bands above it move down. */
    method RemoveAt(num: int) returns (status: Status)
      modifies this`bands
      ensures !(0 <= num < |old(bands)|) ==> status == Failed(NoElement) && bands == old(bands)
      ensures 0 <= num < |old(bands)| ==> status == Done && bands == RemoveAtIndex(old(bands), num)
      ensures DistinctIds(old(bands)) ==> DistinctIds(bands)
    {
      if num < 0 || num >= |bands| {
        return Failed(NoElement);
      }
      if DistinctIds(bands) {
        RemoveAtIndexDistinct(bands, num);
      }
      bands := RemoveAtIndex(bands, num);
      return Done;
    }

    /** `removeFirst`: EmptyCollection on an empty stack; otherwise the first
        band equal to the top one is removed, which is the top itself when
        ids are distinct. */
    method RemoveFirst() returns (status: Status)
      modifies this`bands
      ensures old(bands) == [] ==> status == Failed(EmptyCollection) && bands == old(bands)
      ensures old(bands) != [] ==> status == Done && bands == RemoveFirstOf(old(bands), old(bands)[|old(bands)| - 1])
      ensures old(bands) != [] && DistinctIds(old(bands)) ==> bands == old(bands)[..|old(bands)| - 1]
      ensures DistinctIds(old(bands)) ==> DistinctIds(bands)
    {
      if bands == [] {
        return Failed(EmptyCollection);
      }
      ghost var before := bands;
      bands := RemoveFirstOf(bands, bands[|bands| - 1]);
      if DistinctIds(before) {
        RemoveTop(before);
        assert forall k :: 0 <= k < |bands| ==> bands[k] == before[k];
      }
      return Done;
    }

    /** `updateId`: NoElement before InvalidData, both leaving the stack
        alone; otherwise the old band is removed and the replacement,
        carrying `id`, is pushed on top. */
    method UpdateId(id: int, band: MusicBand) returns (status: Status)
      modifies this`bands
      ensures !HasId(old(bands), id) ==> status == Failed(NoElement) && bands == old(bands)
      ensures HasId(old(bands), id) && !api.isValid(band) ==>
        status == Failed(InvalidData) && bands == old(bands)
      ensures HasId(old(bands), id) && api.isValid(band) ==>
        status == Done
        && bands == RemoveAtIndex(old(bands), IndexOfId(old(bands), id).value) + [band.(id := id)]
      ensures |bands| == |old(bands)|
      ensures DistinctIds(old(bands)) ==> DistinctIds(bands)
    {
      var oldElem := GetById(bands, id);
      if oldElem.None? {
        return Failed(NoElement);
      }
      if !api.isValid(band) {
        return Failed(InvalidData);
      }
      RemoveFoundBand(bands, id);
      var i := IndexOfId(bands, id).value;
      var rest := RemoveFirstOf(bands, oldElem.value);
      if DistinctIds(bands) {
        RemoveAtIndexDistinct(bands, i);
        forall a, b | 0 <= a < b < |rest| + 1 ensures (rest + [band.(id := id)])[a].id != (rest + [band.(id := id)])[b].id {
          if b == |rest| {
            assert (rest + [band.(id := id)])[a] == rest[a];
          } else {
            assert (rest + [band.(id := id)])[a] == rest[a] && (rest + [band.(id := id)])[b] == rest[b];
          }
        }
      }
      bands := rest + [band.(id := id)];
      return Done;
    }

    /** `removeElements`: `bands.remove(getById(id))` for each id in order. */
    method RemoveElements(ids: seq<int>)
      modifies this`bands
      ensures bands == RemoveIds(old(bands), ids)
      ensures DistinctIds(old(bands)) ==> bands == Without(old(bands), ids)
    {
      var k := 0;
      while k < |ids|
        invariant 0 <= k <= |ids|
        invariant bands == RemoveIds(old(bands), ids[..k])
      {
        assert ids[..k + 1][..k] == ids[..k];
        bands := RemoveId(bands, ids[k]);
        k := k + 1;
      }
      assert ids[..k] == ids;
      if DistinctIds(old(bands)) {
        RemoveIdsIsWithout(old(bands), ids);
      }
    }

    /** `clear`: AlreadyEmpty on an empty stack, otherwise everything goes. */
    method Clear() returns (status: Status)
      modifies this`bands
      ensures old(bands) == [] ==> status == Failed(AlreadyEmpty) && bands == old(bands)
      ensures old(bands) != [] ==> status == Done && bands == []
    {
      if bands == [] {
        return Failed(AlreadyEmpty);
      }
      bands := [];
      return Done;
    }

    /** `shuffle`: EmptyCollection on an empty stack; otherwise the bands are
        copied to a list, `Collections.shuffle` swaps each position from the
        top down with a randomly chosen position at or below it, and the
        result replaces the stack. */
    method Shuffle() returns (status: Status)
      modifies this`bands
      ensures old(bands) == [] ==> status == Failed(EmptyCollection) && bands == old(bands)
      ensures old(bands) != [] ==> status == Done
      ensures |bands| == |old(bands)| && multiset(bands) == multiset(old(bands))
      ensures DistinctIds(old(bands)) ==> DistinctIds(bands)
    {
      if bands == [] {
        return Failed(EmptyCollection);
      }
      var list := bands;
      var i := |list| - 1;
      while i > 0
        invariant 0 <= i < |list|
        invariant bands == old(bands)
        invariant |list| == |bands| && multiset(list) == multiset(bands)
        invariant DistinctIds(bands) ==> DistinctIds(list)
      {
        var j :| 0 <= j <= i;
        if DistinctIds(list) {
          SwapDistinct(list, i, j);
        }
        list := Swap(list, i, j);
        i := i - 1;
      }
      bands := list;
      return Done;
    }
  }
}
