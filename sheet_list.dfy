/**
 * The list operations both pages run over their collection of sheets:
 * look a day up (`find`), list the days (`map`), drop by id (`filter`) and
 * replace by id (`map`), with the one-sheet-per-day invariant they keep.
 */
module SheetList {
  import opened Domain

  /** The first sheet for `day`, as `Array.prototype.find` returns it. */
  function FindByDate(sheets: seq<Sheet>, day: Day): (found: Option<Sheet>)
    ensures found.None? <==> forall k :: 0 <= k < |sheets| ==> sheets[k].date != day
    ensures found.Some? ==> exists i :: 0 <= i < |sheets| && sheets[i] == found.value && found.value.date == day
                                        && forall k :: 0 <= k < i ==> sheets[k].date != day
  {
    if sheets == [] then None
    else if sheets[0].date == day then Some(sheets[0])
    else
      var rest := FindByDate(sheets[1..], day);
      assert rest.Some? ==> exists i :: 0 <= i < |sheets| - 1 && sheets[1..][i] == rest.value && rest.value.date == day
                                        && forall k :: 0 <= k < i ==> sheets[1..][k].date != day;
      rest
  }

  /** Some sheet of the collection is for `day`. */
  predicate HasDate(sheets: seq<Sheet>, day: Day)
  {
    exists k :: 0 <= k < |sheets| && sheets[k].date == day
  }

  /** The day of each sheet, in collection order (the picker's `existingDates`). */
  function Dates(sheets: seq<Sheet>): (days: seq<Day>)
    ensures |days| == |sheets|
    ensures forall k :: 0 <= k < |sheets| ==> days[k] == sheets[k].date
  {
    seq(|sheets|, k requires 0 <= k < |sheets| => sheets[k].date)
  }

  /** A day is listed exactly when a sheet is for it. */
  lemma InDatesIff(sheets: seq<Sheet>, day: Day)
    ensures day in Dates(sheets) <==> HasDate(sheets, day)
  {
    if HasDate(sheets, day) {
      var k :| 0 <= k < |sheets| && sheets[k].date == day;
      assert Dates(sheets)[k] == day;
    }
  }

  /** At most one sheet per day. */
  ghost predicate UniqueDates(sheets: seq<Sheet>)
  {
    forall i, j :: 0 <= i < j < |sheets| ==> sheets[i].date != sheets[j].date
  }

  /** At most one sheet per id. */
  ghost predicate UniqueIds(sheets: seq<Sheet>)
  {
    forall i, j :: 0 <= i < j < |sheets| ==> sheets[i].id != sheets[j].id
  }

  /** The collection without the sheets whose id is `id`, the others in order. */
  function RemoveById(sheets: seq<Sheet>, id: SheetId): (r: seq<Sheet>)
    ensures forall s :: s in r <==> s in sheets && s.id != id
    ensures |r| <= |sheets|
    ensures (forall k :: 0 <= k < |sheets| ==> sheets[k].id != id) ==> r == sheets
    ensures (exists k :: 0 <= k < |sheets| && sheets[k].id == id) ==> |r| < |sheets|
  {
    if sheets == [] then []
    else if sheets[0].id == id then RemoveById(sheets[1..], id)
    else
      var rest := RemoveById(sheets[1..], id);
      assert (exists k :: 0 <= k < |sheets| && sheets[k].id == id) ==> exists k :: 0 <= k < |sheets| - 1 && sheets[1..][k].id == id by {
        if exists k :: 0 <= k < |sheets| && sheets[k].id == id {
          var k :| 0 <= k < |sheets| && sheets[k].id == id;
          assert sheets[1..][k - 1].id == id;
        }
      }
      [sheets[0]] + rest
  }

  /** On a single sheet the filter keeps it exactly when its id differs. */
  lemma RemoveByIdSingle(s: Sheet, id: SheetId)
    ensures RemoveById([s], id) == if s.id == id then [] else [s]
  {
    assert [s][1..] == [];
  }

  /** The filter on a sheet followed by more: that sheet when kept, then the filtered rest. */
  lemma RemoveByIdCons(s: Sheet, rest: seq<Sheet>, id: SheetId)
    ensures RemoveById([s] + rest, id) == (if s.id == id then [] else [s]) + RemoveById(rest, id)
  {
    assert ([s] + rest)[0] == s && ([s] + rest)[1..] == rest;
  }

  /**
   * The filter works piece by piece: filtering a concatenation concatenates
   * the filtered pieces, so the kept sheets keep their order and their number.
   */
  lemma {:induction false} RemoveByIdAppend(a: seq<Sheet>, b: seq<Sheet>, id: SheetId)
    ensures RemoveById(a + b, id) == RemoveById(a, id) + RemoveById(b, id)
    decreases |a|
  {
    if a == [] {
      assert a + b == b;
    } else {
      var x, tail := a[0], a[1..];
      var h := if x.id == id then [] else [x];
      var rt, rb := RemoveById(tail, id), RemoveById(b, id);
      assert a == [x] + tail;
      assert a + b == [x] + (tail + b);
      calc {
        RemoveById(a + b, id);
      == { RemoveByIdCons(x, tail + b, id); }
        h + RemoveById(tail + b, id);
      == { RemoveByIdAppend(tail, b, id); }
        h + (rt + rb);
      == { assert h + (rt + rb) == (h + rt) + rb; }
        (h + rt) + rb;
      == { RemoveByIdCons(x, tail, id); }
        RemoveById(a, id) + rb;
      }
    }
  }

  /** Concretely: deleting the middle sheet of three keeps the outer two, in order. */
  lemma RemoveByIdMiddle(a: Sheet, x: Sheet, b: Sheet)
    requires a.id != x.id && b.id != x.id
    ensures RemoveById([a, x, b], x.id) == [a, b]
  {
    assert [a, x, b] == [a] + [x] + [b];
    RemoveByIdAppend([a] + [x], [b], x.id);
    RemoveByIdAppend([a], [x], x.id);
    RemoveByIdSingle(a, x.id);
    RemoveByIdSingle(x, x.id);
    RemoveByIdSingle(b, x.id);
  }

  /** The collection with every sheet whose id is `s.id` replaced by `s`. */
  function ReplaceById(sheets: seq<Sheet>, s: Sheet): (r: seq<Sheet>)
    ensures |r| == |sheets|
    ensures forall k :: 0 <= k < |sheets| ==> r[k] == if sheets[k].id == s.id then s else sheets[k]
  {
    seq(|sheets|, k requires 0 <= k < |sheets| => if sheets[k].id == s.id then s else sheets[k])
  }

  /** Dropping sheets cannot create two sheets for one day. */
  lemma {:induction false} RemoveByIdKeepsUniqueDates(sheets: seq<Sheet>, id: SheetId)
    requires UniqueDates(sheets)
    ensures UniqueDates(RemoveById(sheets, id))
  {
    if sheets != [] {
      RemoveByIdKeepsUniqueDates(sheets[1..], id);
      var rest := RemoveById(sheets[1..], id);
      if sheets[0].id != id {
        forall j | 0 <= j < |rest|
          ensures sheets[0].date != rest[j].date
        {
          assert rest[j] in sheets[1..];
        }
      }
    }
  }

  /** Dropping by id again changes nothing. */
  lemma RemoveByIdIdempotent(sheets: seq<Sheet>, id: SheetId)
    ensures RemoveById(RemoveById(sheets, id), id) == RemoveById(sheets, id)
  {
    var r := RemoveById(sheets, id);
    assert forall k :: 0 <= k < |r| ==> r[k] in r;
  }

  /** Adding a sheet for a day not yet present keeps one sheet per day. */
  lemma AppendKeepsUniqueDates(sheets: seq<Sheet>, s: Sheet)
    requires UniqueDates(sheets)
    requires !HasDate(sheets, s.date)
    ensures UniqueDates(sheets + [s])
  {
  }

  /** Replacing sheets by one with the same day keeps one sheet per day. */
  lemma ReplaceByIdKeepsUniqueDates(sheets: seq<Sheet>, s: Sheet)
    requires UniqueDates(sheets)
    requires forall k :: 0 <= k < |sheets| && sheets[k].id == s.id ==> sheets[k].date == s.date
    ensures UniqueDates(ReplaceById(sheets, s))
  {
  }

  /** After a replacement the sheet is found for its day, and the other days are untouched. */
  lemma ReplaceByIdThenFind(sheets: seq<Sheet>, s: Sheet, day: Day)
    requires UniqueDates(sheets)
    requires exists k :: 0 <= k < |sheets| && sheets[k].id == s.id && sheets[k].date == s.date
    requires forall k :: 0 <= k < |sheets| && sheets[k].id == s.id ==> sheets[k].date == s.date
    ensures FindByDate(ReplaceById(sheets, s), s.date) == Some(s)
    ensures day != s.date ==> FindByDate(ReplaceById(sheets, s), day) == FindByDate(sheets, day)
  {
    var r := ReplaceById(sheets, s);
    ReplaceByIdKeepsUniqueDates(sheets, s);
    var k :| 0 <= k < |sheets| && sheets[k].id == s.id && sheets[k].date == s.date;
    UniqueFind(r, k);
    if day != s.date {
      FindAgreement(sheets, r, day);
    }
  }

  /** In a collection with one sheet per day, the sheet at `i` is the one found for its day. */
  lemma UniqueFind(sheets: seq<Sheet>, i: nat)
    requires UniqueDates(sheets) && i < |sheets|
    ensures FindByDate(sheets, sheets[i].date) == Some(sheets[i])
  {
    var f := FindByDate(sheets, sheets[i].date);
    var j :| 0 <= j < |sheets| && sheets[j] == f.value && f.value.date == sheets[i].date
             && forall k :: 0 <= k < j ==> sheets[k].date != sheets[i].date;
    assert j == i;
  }

  /** Two collections that agree on the sheets for `day`, position by position, find the same one. */
  lemma {:induction false} FindAgreement(a: seq<Sheet>, b: seq<Sheet>, day: Day)
    requires |a| == |b|
    requires forall k :: 0 <= k < |a| ==> (a[k].date == day || b[k].date == day ==> a[k] == b[k])
    ensures FindByDate(a, day) == FindByDate(b, day)
  {
    if a != [] {
      FindAgreement(a[1..], b[1..], day);
    }
  }
}
