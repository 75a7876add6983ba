/** The order of strings by their characters, in which the store sorts and lists names. */
module Names {

  predicate NameLess(a: string, b: string) {
    b != "" && (a == "" || a[0] < b[0] || (a[0] == b[0] && NameLess(a[1..], b[1..])))
  }

  /** `a` comes before `b`: at the first place where they differ it has the smaller character, or ends there. */
  ghost predicate Before(a: string, b: string) {
    exists i :: 0 <= i <= |a| && i <= |b| && a[..i] == b[..i] &&
      (i == |a| < |b| || (i < |a| && i < |b| && a[i] < b[i]))
  }

  lemma {:induction false} LessIsBefore(a: string, b: string)
    requires NameLess(a, b)
    ensures Before(a, b)
  {
    if a == "" || a[0] != b[0] {
      assert a[..0] == b[..0];
    } else {
      LessIsBefore(a[1..], b[1..]);
      var x, y := a[1..], b[1..];
      var i :| 0 <= i <= |x| && i <= |y| && x[..i] == y[..i] &&
        (i == |x| < |y| || (i < |x| && i < |y| && x[i] < y[i]));
      assert a[..i + 1] == [a[0]] + x[..i] == [b[0]] + y[..i] == b[..i + 1];
    }
  }

  lemma {:induction false} BeforeAtIsLess(a: string, b: string, i: nat)
    requires i <= |a| && i <= |b| && a[..i] == b[..i]
    requires i == |a| < |b| || (i < |a| && i < |b| && a[i] < b[i])
    ensures NameLess(a, b)
  {
    if i > 0 {
      assert a[0] == a[..i][0] == b[..i][0] == b[0];
      assert a[1..][..i - 1] == a[..i][1..] == b[..i][1..] == b[1..][..i - 1];
      BeforeAtIsLess(a[1..], b[1..], i - 1);
    }
  }

  lemma NameLessIff(a: string, b: string)
    ensures NameLess(a, b) <==> Before(a, b)
  {
    if NameLess(a, b) {
      LessIsBefore(a, b);
    } else if Before(a, b) {
      var i :| 0 <= i <= |a| && i <= |b| && a[..i] == b[..i] &&
        (i == |a| < |b| || (i < |a| && i < |b| && a[i] < b[i]));
      BeforeAtIsLess(a, b, i);
    }
  }

  lemma {:induction false} NameTotal(a: string, b: string)
    ensures NameLess(a, b) || NameLess(b, a) || a == b
  {
    if a != "" && b != "" && a[0] == b[0] {
      NameTotal(a[1..], b[1..]);
      assert a == [a[0]] + a[1..] && b == [b[0]] + b[1..];
    }
  }

  lemma {:induction false} NameTransitive(a: string, b: string, c: string)
    requires NameLess(a, b) && NameLess(b, c)
    ensures NameLess(a, c)
  {
    if a != "" && a[0] == b[0] && b[0] == c[0] {
      NameTransitive(a[1..], b[1..], c[1..]);
    }
  }

  ghost predicate Ascending(names: seq<string>) {
    forall i, j :: 0 <= i < j < |names| ==> Before(names[i], names[j])
  }

  function InsertName(sorted: seq<string>, name: string): seq<string> {
    if sorted == [] || NameLess(name, sorted[0]) then [name] + sorted
    else [sorted[0]] + InsertName(sorted[1..], name)
  }

  /** sort.Strings */
  function SortNames(names: seq<string>): seq<string> {
    if names == [] then [] else InsertName(SortNames(names[1..]), names[0])
  }

  ghost predicate InOrder(names: seq<string>) {
    forall i, j :: 0 <= i < j < |names| ==> NameLess(names[i], names[j])
  }

  lemma {:induction false} InsertInOrder(sorted: seq<string>, name: string)
    requires InOrder(sorted) && name !in sorted
    ensures InOrder(InsertName(sorted, name))
    ensures forall x :: x in InsertName(sorted, name) <==> x == name || x in sorted
  {
    var r := InsertName(sorted, name);
    if sorted == [] {
    } else if NameLess(name, sorted[0]) {
      forall j | 0 <= j < |sorted| ensures NameLess(name, sorted[j]) {
        if j > 0 {
          NameTransitive(name, sorted[0], sorted[j]);
        }
      }
    } else {
      NameTotal(name, sorted[0]);
      InsertInOrder(sorted[1..], name);
      var rest := InsertName(sorted[1..], name);
      forall j | 0 <= j < |rest| ensures NameLess(sorted[0], rest[j]) {
        assert rest[j] in rest;
        if rest[j] != name {
          var i :| 0 <= i < |sorted[1..]| && sorted[1..][i] == rest[j];
          assert sorted[i + 1] == rest[j];
        }
      }
      assert r == [sorted[0]] + rest;
    }
  }

  ghost predicate Distinct(names: seq<string>) {
    forall i, j :: 0 <= i < j < |names| ==> names[i] != names[j]
  }

  lemma {:induction false} SortInOrder(names: seq<string>)
    requires Distinct(names)
    ensures InOrder(SortNames(names)) && forall x :: x in SortNames(names) <==> x in names
  {
    if names != [] {
      assert forall i :: 0 <= i < |names[1..]| ==> names[1..][i] == names[i + 1];
      SortInOrder(names[1..]);
      assert names[0] !in names[1..];
      InsertInOrder(SortNames(names[1..]), names[0]);
      assert forall x :: x in names <==> x == names[0] || x in names[1..];
    }
  }

  lemma SortAscending(names: seq<string>)
    requires Distinct(names)
    ensures Ascending(SortNames(names)) && forall x :: x in SortNames(names) <==> x in names
  {
    SortInOrder(names);
    hide SortNames, NameLess, Before;
    var r := SortNames(names);
    forall i, j | 0 <= i < j < |r| ensures Before(r[i], r[j]) {
      NameLessIff(r[i], r[j]);
    }
  }

  lemma AscendingDistinct(names: seq<string>)
    requires Ascending(names)
    ensures Distinct(names)
  {
  }
}
