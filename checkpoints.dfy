/** Checkpoint selection (test.py, `main`).

    The sweep keeps a directory entry when it is a regular file, its name
    passes `str.isdigit()`, and `int(name) % 5 == 0`.  The directory listing
    is an input: each entry carries its name and whether `isfile` holds for
    it.  Digits are the ASCII digits `'0'..'9'`.
 */
module Checkpoints {

  /** One entry of the checkpoint directory listing. */
  datatype Entry = Entry(name: string, isFile: bool)

  predicate IsDigit(c: char) {
    '0' <= c <= '9'
  }

  /** `str.isdigit()`: non-empty and every character a digit.  Such a name
      holds no path separator, so joining it onto a directory is relative. */
  predicate IsDigitString(s: string)
    ensures IsDigitString(s) ==> s != [] && '/' !in s
  {
    |s| > 0 && forall i :: 0 <= i < |s| ==> IsDigit(s[i])
  }

  function DigitValue(c: char): (d: nat)
    requires IsDigit(c)
    ensures d < 10
  {
    (c - '0') as nat
  }

  function Pow10(n: nat): (p: nat)
    ensures p >= 1
  {
    if n == 0 then 1 else 10 * Pow10(n - 1)
  }

  /** `int(s)` for a string of decimal digits (leading zeros allowed): `n`
      digits stay below `10^n`. */
  function DecimalValue(s: string): (r: nat)
    requires forall i :: 0 <= i < |s| ==> IsDigit(s[i])
    ensures r < Pow10(|s|)
  {
    if s == [] then 0
    else
      var prefix := DecimalValue(s[..|s| - 1]);
      assert prefix * 10 + 9 < Pow10(|s|) by {
        assert prefix + 1 <= Pow10(|s| - 1);
        assert (prefix + 1) * 10 <= Pow10(|s| - 1) * 10;
      }
      prefix * 10 + DigitValue(s[|s| - 1])
  }

  /** The last digit of a digit string is the units digit of its value. */
  lemma DecimalUnitsDigit(s: string)
    requires s != [] && forall i :: 0 <= i < |s| ==> IsDigit(s[i])
    ensures DecimalValue(s) % 10 == DigitValue(s[|s| - 1])
  {
    var prefix, d := DecimalValue(s[..|s| - 1]), DigitValue(s[|s| - 1]);
    assert DecimalValue(s) == 10 * prefix + d;
  }

  /** The condition of the list comprehension, evaluated left to right. */
  predicate Selected(e: Entry) {
    e.isFile && IsDigitString(e.name) && DecimalValue(e.name) % 5 == 0
  }

  /** The comprehension itself: the names of the selected entries, in
      listing order. */
  function SelectCheckpoints(entries: seq<Entry>): (r: seq<string>)
    ensures |r| <= |entries|
    ensures forall n :: n in r <==> exists e :: e in entries && Selected(e) && e.name == n
  {
    if entries == [] then []
    else
      var rest := SelectCheckpoints(entries[1..]);
      assert forall e :: e in entries <==> e == entries[0] || e in entries[1..];
      if Selected(entries[0]) then [entries[0].name] + rest else rest
  }

  /** Selection distributes over concatenation, so the selected names keep
      the order of the listing. */
  lemma {:induction false} SelectAppend(a: seq<Entry>, b: seq<Entry>)
    ensures SelectCheckpoints(a + b) == SelectCheckpoints(a) + SelectCheckpoints(b)
  {
    if a == [] {
      assert a + b == b;
    } else {
      assert (a + b)[0] == a[0];
      assert (a + b)[1..] == a[1..] + b;
      SelectAppend(a[1..], b);
    }
  }

  /** An entry's name is selected on its own exactly when it passes the
      filter. */
  lemma SelectSingle(e: Entry)
    ensures SelectCheckpoints([e]) == if Selected(e) then [e.name] else []
  {
  }

  /** Removing entries that fail the filter does not change the selection. */
  lemma {:induction false} SelectIgnoresRejected(a: seq<Entry>, e: Entry, b: seq<Entry>)
    requires !Selected(e)
    ensures SelectCheckpoints(a + [e] + b) == SelectCheckpoints(a + b)
  {
    SelectAppend(a + [e], b);
    SelectAppend(a, [e]);
    SelectSingle(e);
    SelectAppend(a, b);
  }

  /** `int(s) % 5 == 0` depends only on the last digit, which must be 0 or 5. */
  lemma DivisibleByFiveIffLastDigit(s: string)
    requires IsDigitString(s)
    ensures DecimalValue(s) % 5 == 0 <==> s[|s| - 1] == '0' || s[|s| - 1] == '5'
  {
    var prefix, d := DecimalValue(s[..|s| - 1]), DigitValue(s[|s| - 1]);
    assert DecimalValue(s) == 10 * prefix + d;
    TensAreMultiplesOfFive(prefix, d);
  }

  lemma TensAreMultiplesOfFive(p: nat, d: nat)
    ensures (10 * p + d) % 5 == d % 5
  {
    assert 10 * p + d == 5 * (2 * p) + d;
  }

  /** The listing `5, 7, 10, abc` (all regular files) selects `5, 10`. */
  lemma SelectExample()
    ensures SelectCheckpoints([Entry("5", true), Entry("7", true), Entry("10", true), Entry("abc", true)])
            == ["5", "10"]
  {
  }

  /** A directory entry that is not a regular file is never selected, even
      with a numeric name. */
  lemma DirectoriesNeverSelected(entries: seq<Entry>, n: string)
    requires forall e :: e in entries && e.name == n ==> !e.isFile
    ensures n !in SelectCheckpoints(entries)
  {
  }

  /** No two entries of a directory listing share a name. */
  predicate NamesDistinct(entries: seq<Entry>) {
    forall i, j :: 0 <= i < j < |entries| ==> entries[i].name != entries[j].name
  }

  predicate NoDuplicates(names: seq<string>) {
    forall i, j :: 0 <= i < j < |names| ==> names[i] != names[j]
  }

  /** A listing without repeated names selects every checkpoint once. */
  lemma {:induction false} SelectDistinct(entries: seq<Entry>)
    requires NamesDistinct(entries)
    ensures NoDuplicates(SelectCheckpoints(entries))
  {
    if entries != [] {
      var rest := SelectCheckpoints(entries[1..]);
      assert NamesDistinct(entries[1..]);
      SelectDistinct(entries[1..]);
      if Selected(entries[0]) {
        var n := entries[0].name;
        assert n !in rest;
        var r := [n] + rest;
        assert SelectCheckpoints(entries) == r;
        forall i, j | 0 <= i < j < |r| ensures r[i] != r[j] {
          assert r[j] == rest[j - 1];
          if i == 0 {
            assert rest[j - 1] in rest;
          } else {
            assert r[i] == rest[i - 1];
          }
        }
      }
    }
  }

  /** Every selected name is a string of digits. */
  lemma SelectedAreDigitStrings(entries: seq<Entry>)
    ensures forall n :: n in SelectCheckpoints(entries) ==> IsDigitString(n)
  {
  }
}
