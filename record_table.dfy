/**
  The logic of the `Table` component (src/components/Table.jsx): deleting
  a record by its position and the date-of-birth cell. Records are
  identified by their position in the list only.
 */
module RecordTable {
  import opened Wrappers

  /** One stored record, with the form's values as they were entered. */
  datatype Record = Record(
    name: string, email: string, phone: string,
    day: string, month: string, year: string,
    city: string, district: string, province: string, country: string,
    image: Option<string>)

  /**
    `records.filter((_, i) => i !== index)`: walk the list keeping every
    element whose position differs from `index`. A position that is out of
    range (negative or past the end) matches nothing.
   */
  function DeleteAt<T>(records: seq<T>, index: int): (r: seq<T>)
    ensures 0 <= index < |records| ==> |r| == |records| - 1
    ensures 0 <= index < |records| ==> forall i :: 0 <= i < index ==> r[i] == records[i]
    ensures 0 <= index < |records| ==> forall i :: index <= i < |r| ==> r[i] == records[i + 1]
    ensures !(0 <= index < |records|) ==> r == records
  {
    if records == [] then []
    else (if index == 0 then [] else [records[0]]) + DeleteAt(records[1..], index - 1)
  }

  /** Deleting position `i` splices the list around it. */
  lemma {:induction false} DeleteAtIsSplice<T>(records: seq<T>, index: int)
    requires 0 <= index < |records|
    ensures DeleteAt(records, index) == records[..index] + records[index + 1..]
  {
  }

  /** Nothing is added: the deleted element plus the result make up the input as a multiset. */
  lemma {:induction false} DeleteAtMultiset<T>(records: seq<T>, index: int)
    ensures multiset(records) ==
      multiset(DeleteAt(records, index)) + (if 0 <= index < |records| then multiset{records[index]} else multiset{})
  {
    if 0 <= index < |records| {
      var before, after := records[..index], records[index + 1..];
      DeleteAtIsSplice(records, index);
      assert DeleteAt(records, index) == before + after;
      assert records == before + [records[index]] + after;
      assert multiset(records) == multiset(before) + multiset{records[index]} + multiset(after);
    } else {
      assert DeleteAt(records, index) == records;
    }
  }

  /** `sub` is `s` with some elements left out, the rest in their order. */
  predicate IsSubsequence<T(==)>(sub: seq<T>, s: seq<T>)
    decreases |s|
  {
    if sub == [] then true
    else if s == [] then false
    else if sub[0] == s[0] && IsSubsequence(sub[1..], s[1..]) then true
    else IsSubsequence(sub, s[1..])
  }

  lemma {:induction false} SubsequenceOfSelf<T>(s: seq<T>)
    ensures IsSubsequence(s, s)
    decreases |s|
  {
    if s != [] { SubsequenceOfSelf(s[1..]); }
  }

  /** Deleting keeps the order of the remaining elements and adds or reorders none. */
  lemma {:induction false} DeleteAtSubsequence<T>(records: seq<T>, index: int)
    ensures IsSubsequence(DeleteAt(records, index), records)
    decreases |records|
  {
    if records != [] {
      var rest := DeleteAt(records[1..], index - 1);
      DeleteAtSubsequence(records[1..], index - 1);
      if index == 0 {
        assert DeleteAt(records, index) == rest;
      } else {
        assert DeleteAt(records, index) == [records[0]] + rest;
        assert ([records[0]] + rest)[1..] == rest;
      }
    } else {
      SubsequenceOfSelf(records);
    }
  }

  /** Adding a record at the end and then deleting the last position restores the list. */
  lemma AppendThenDeleteLast<T>(records: seq<T>, r: T)
    ensures DeleteAt(records + [r], |records|) == records
  {
  }

  /** The DOB column: `${day}-${month}-${year}`. */
  function DobCell(r: Record): (cell: string)
    ensures |cell| == |r.day| + |r.month| + |r.year| + 2
    ensures cell[..|r.day|] == r.day && cell[|r.day|] == '-'
    ensures cell[|r.day| + 1..|r.day| + 1 + |r.month|] == r.month && cell[|r.day| + 1 + |r.month|] == '-'
    ensures cell[|r.day| + |r.month| + 2..] == r.year
  {
    r.day + "-" + r.month + "-" + r.year
  }

  /** The position of the first '-' in `s`, or |s| when there is none. */
  function FirstDash(s: string): (n: nat)
    ensures n <= |s|
    ensures forall i :: 0 <= i < n ==> s[i] != '-'
    ensures n < |s| ==> s[n] == '-'
  {
    if s == [] || s[0] == '-' then 0 else 1 + FirstDash(s[1..])
  }

  /** Splits a DOB cell back into day, month and year at its first two dashes. */
  function ParseDob(cell: string): (string, string, string) {
    var i := FirstDash(cell);
    if i == |cell| then (cell, "", "")
    else
      var rest := cell[i + 1..];
      var j := FirstDash(rest);
      if j == |rest| then (cell[..i], rest, "")
      else (cell[..i], rest[..j], rest[j + 1..])
  }

  lemma {:induction false} FirstDashAfter(prefix: string, s: string)
    requires forall i :: 0 <= i < |prefix| ==> prefix[i] != '-'
    requires s != [] && s[0] == '-'
    ensures FirstDash(prefix + s) == |prefix|
    decreases |prefix|
  {
    if prefix != [] {
      assert (prefix + s)[1..] == prefix[1..] + s;
      FirstDashAfter(prefix[1..], s);
    } else {
      assert prefix + s == s;
    }
  }

  /**
    When day and month hold no '-', the DOB cell determines all three parts:
    parsing it back yields them.
   */
  lemma DobCellRoundTrip(r: Record)
    requires forall i :: 0 <= i < |r.day| ==> r.day[i] != '-'
    requires forall i :: 0 <= i < |r.month| ==> r.month[i] != '-'
    ensures ParseDob(DobCell(r)) == (r.day, r.month, r.year)
  {
    var cell := DobCell(r);
    var tail := "-" + r.month + "-" + r.year;
    assert cell == r.day + tail;
    FirstDashAfter(r.day, tail);
    var rest := cell[|r.day| + 1..];
    var yearTail := "-" + r.year;
    assert rest == r.month + yearTail;
    FirstDashAfter(r.month, yearTail);
  }
}
