// api: normalizeCollections and sortedKeys, which turn the names in a request
// into an ordered list.

module Names {
  import opened Model
  import opened Text

  // The order of sort.Strings.
  predicate Before(a: string, b: string) {
    b != [] && (a == [] || a[0] < b[0] || (a[0] == b[0] && Before(a[1..], b[1..])))
  }

  // That is: a proper prefix comes first, and otherwise the text with the lower
  // character where the two first differ.
  lemma {:induction false} BeforeIff(a: string, b: string)
    ensures Before(a, b) <==> a < b || exists i :: 0 <= i < |a| && i < |b| && a[..i] == b[..i] && a[i] < b[i]
  {
    if a != [] && b != [] && a[0] == b[0] {
      BeforeIff(a[1..], b[1..]);
      FirstDifferenceLater(a, b);
      assert a == [a[0]] + a[1..] && b == [b[0]] + b[1..];
    } else if a != [] && b != [] && a[0] < b[0] {
      assert a[..0] == b[..0];
    }
  }

  lemma FirstDifferenceLater(a: string, b: string)
    requires a != [] && b != [] && a[0] == b[0]
    ensures (exists i :: 0 <= i < |a| && i < |b| && a[..i] == b[..i] && a[i] < b[i])
       <==> exists i :: 0 <= i < |a[1..]| && i < |b[1..]| && a[1..][..i] == b[1..][..i] && a[1..][i] < b[1..][i]
  {
    if i :| 0 <= i < |a| && i < |b| && a[..i] == b[..i] && a[i] < b[i] {
      assert a[1..][..i - 1] == a[..i][1..] && b[1..][..i - 1] == b[..i][1..];
      assert a[1..][i - 1] == a[i] && b[1..][i - 1] == b[i];
    }
    if i :| 0 <= i < |a[1..]| && i < |b[1..]| && a[1..][..i] == b[1..][..i] && a[1..][i] < b[1..][i] {
      assert a[..i + 1] == [a[0]] + a[1..][..i] && b[..i + 1] == [b[0]] + b[1..][..i];
      assert a[i + 1] == a[1..][i] && b[i + 1] == b[1..][i];
    }
  }

  lemma {:induction false} BeforeIsStrict(a: string)
    ensures !Before(a, a)
  {
    if a != [] {
      BeforeIsStrict(a[1..]);
    }
  }

  lemma {:induction false} BeforeIsTransitive(a: string, b: string, c: string)
    requires Before(a, b) && Before(b, c)
    ensures Before(a, c)
  {
    if a != [] && a[0] == b[0] == c[0] {
      BeforeIsTransitive(a[1..], b[1..], c[1..]);
    }
  }

  lemma {:induction false} BeforeIsTotal(a: string, b: string)
    ensures a == b || Before(a, b) || Before(b, a)
  {
    if a != [] && b != [] && a[0] == b[0] {
      BeforeIsTotal(a[1..], b[1..]);
      assert a == [a[0]] + a[1..] && b == [b[0]] + b[1..];
    }
  }

  ghost predicate Ascending(s: seq<string>) {
    forall i, j :: 0 <= i < j < |s| ==> Before(s[i], s[j])
  }

  ghost function Members(s: seq<string>): set<string> {
    set n | n in s
  }

  // ---------- One order for one set of names ----------

  lemma FirstIsLeast(s: seq<string>, n: string)
    requires Ascending(s) && n in s
    ensures n == s[0] || Before(s[0], n)
  {
  }

  lemma FirstsAgree(a: seq<string>, b: seq<string>)
    requires Ascending(a) && Ascending(b) && Members(a) == Members(b) && a != []
    ensures b != [] && a[0] == b[0]
  {
    assert a[0] in Members(b);
    assert b[0] in Members(a);
    FirstIsLeast(a, b[0]);
    FirstIsLeast(b, a[0]);
    if a[0] != b[0] {
      BeforeIsTransitive(a[0], b[0], a[0]);
      BeforeIsStrict(a[0]);
    }
  }

  lemma TailMembers(s: seq<string>)
    requires Ascending(s) && s != []
    ensures Ascending(s[1..]) && Members(s[1..]) == Members(s) - {s[0]}
  {
    BeforeIsStrict(s[0]);
    assert s == [s[0]] + s[1..];
  }

  lemma NoMembers(s: seq<string>)
    ensures Members(s) == {} <==> s == []
  {
    if s != [] {
      assert s[0] in Members(s);
    }
  }

  // Ascending lists with the same members are the same list.
  lemma {:induction false} OneOrder(a: seq<string>, b: seq<string>)
    requires Ascending(a) && Ascending(b) && Members(a) == Members(b)
    ensures a == b
  {
    NoMembers(a);
    NoMembers(b);
    if a != [] {
      FirstsAgree(a, b);
      TailMembers(a);
      TailMembers(b);
      OneOrder(a[1..], b[1..]);
      assert a == [a[0]] + a[1..] && b == [b[0]] + b[1..];
    }
  }

  // ---------- Specification ----------

  function Insert(s: seq<string>, n: string): seq<string> {
    if s == [] then [n]
    else if s[0] == n then s
    else if Before(n, s[0]) then [n] + s
    else [s[0]] + Insert(s[1..], n)
  }

  // The trimmed, non-empty names in order.
  function Normalized(cols: seq<string>): seq<string> {
    if cols == [] then [] else
    var before, n := Normalized(cols[..|cols| - 1]), TrimSpace(cols[|cols| - 1]);
    if n == "" then before else Insert(before, n)
  }

  // The collections a request asks for: the unnamed one, meaning all tiers, when
  // it names none.
  function Requested(cols: seq<string>): (names: seq<string>)
    ensures names != []
  {
    var names := Normalized(cols);
    if names == [] then [""] else names
  }

  lemma {:induction false} InsertMembers(s: seq<string>, n: string)
    ensures Members(Insert(s, n)) == Members(s) + {n}
  {
    if s != [] {
      InsertMembers(s[1..], n);
      ConsMembers(s[0], s[1..]);
      assert s == [s[0]] + s[1..];
      ConsMembers(n, s);
      ConsMembers(s[0], Insert(s[1..], n));
    }
  }

  lemma ConsMembers(n: string, s: seq<string>)
    ensures Members([n] + s) == {n} + Members(s)
  {
  }

  lemma ConsAscends(n: string, s: seq<string>)
    requires Ascending(s) && forall m | m in Members(s) :: Before(n, m)
    ensures Ascending([n] + s)
  {
    forall j | 0 <= j < |s|
      ensures Before(n, s[j])
    {
      assert s[j] in Members(s);
    }
  }

  lemma {:induction false} InsertAscends(s: seq<string>, n: string)
    requires Ascending(s)
    ensures Ascending(Insert(s, n))
  {
    if s != [] && s[0] != n {
      BeforeIsTotal(s[0], n);
      if Before(n, s[0]) {
        forall m | m in Members(s)
          ensures Before(n, m)
        {
          FirstIsLeast(s, m);
          if m != s[0] {
            BeforeIsTransitive(n, s[0], m);
          }
        }
        ConsAscends(n, s);
      } else {
        TailMembers(s);
        InsertAscends(s[1..], n);
        InsertMembers(s[1..], n);
        forall m | m in Members(s[1..])
          ensures Before(s[0], m)
        {
          FirstIsLeast(s, m);
        }
        ConsAscends(s[0], Insert(s[1..], n));
      }
    }
  }

  // The non-empty trimmed names.
  ghost function Named(cols: seq<string>): set<string> {
    set i | 0 <= i < |cols| && TrimSpace(cols[i]) != "" :: TrimSpace(cols[i])
  }

  lemma NamedAppend(cols: seq<string>, i: nat)
    requires i < |cols|
    ensures Named(cols[..i + 1]) == Named(cols[..i]) + if TrimSpace(cols[i]) == "" then {} else {TrimSpace(cols[i])}
  {
    var init, all := cols[..i], cols[..i + 1];
    assert all[i] == cols[i] && forall k | 0 <= k < i :: all[k] == init[k];
    forall n
      ensures n in Named(all) <==> n in Named(init) || (n == TrimSpace(cols[i]) && n != "")
    {
      if k :| 0 <= k < |all| && TrimSpace(all[k]) != "" && TrimSpace(all[k]) == n {
        assert k < i ==> init[k] == all[k];
      }
      if k :| 0 <= k < |init| && TrimSpace(init[k]) != "" && TrimSpace(init[k]) == n {
        assert all[k] == init[k];
      }
    }
  }

  // The names are in strict order, and exactly the non-empty trimmed ones.
  lemma {:induction false} NormalizedNames(cols: seq<string>)
    ensures Ascending(Normalized(cols)) && Members(Normalized(cols)) == Named(cols)
  {
    if cols != [] {
      var n := |cols| - 1;
      NormalizedNames(cols[..n]);
      TakeOneMore(cols, n);
      NamedAppend(cols, n);
      InsertAscends(Normalized(cols[..n]), TrimSpace(cols[n]));
      InsertMembers(Normalized(cols[..n]), TrimSpace(cols[n]));
    }
  }

  // A request that names no collection asks for the unnamed one, and any other for
  // its names.
  lemma RequestedNames(cols: seq<string>)
    ensures Named(cols) == {} ==> Requested(cols) == [""]
    ensures Named(cols) != {} ==> Ascending(Requested(cols)) && Members(Requested(cols)) == Named(cols)
  {
    NormalizedNames(cols);
    NoMembers(Normalized(cols));
  }

  // How often and in which order a request gives its collections, and blanks
  // around their names, make no difference.
  lemma SameNamesSameRequest(a: seq<string>, b: seq<string>)
    requires Named(a) == Named(b)
    ensures Requested(a) == Requested(b)
  {
    NormalizedNames(a);
    NormalizedNames(b);
    OneOrder(Normalized(a), Normalized(b));
  }

  // ---------- The code ----------

  // normalizeCollections
  method NormalizeCollections(cols: seq<string>) returns (names: seq<string>)
    ensures names == Normalized(cols)
  {
    var found: set<string> := {};
    for i := 0 to |cols|
      invariant found == Named(cols[..i])
    {
      NamedAppend(cols, i);
      var c := TrimSpace(cols[i]);
      if c == "" {
        continue;
      }
      found := found + {c};
    }
    assert cols[..|cols|] == cols;
    names := SortedKeys(found);
    NormalizedNames(cols);
    OneOrder(names, Normalized(cols));
  }

  // sortedKeys
  method SortedKeys(keys: set<string>) returns (sorted: seq<string>)
    ensures Ascending(sorted) && Members(sorted) == keys
  {
    sorted := [];
    var todo := keys;
    while todo != {}
      invariant Ascending(sorted) && todo <= keys && Members(sorted) == keys - todo
      decreases todo
    {
      var k :| k in todo;
      InsertMembers(sorted, k);
      InsertAscends(sorted, k);
      sorted := Insert(sorted, k);
      todo := todo - {k};
    }
  }
}
