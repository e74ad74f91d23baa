/** Texts as the app's Swift code treats them: an optional value, the order
    that `String` comparison and `sorted()` use, lower-casing and substring
    search. */
module Text {

  datatype Option<T> = None | Some(value: T)

  /** `a < b` on Swift strings, taken character by character: a proper
      prefix comes first, otherwise the first differing character decides. */
  predicate Below(a: string, b: string)
    decreases |a|
  {
    if a == [] then b != []
    else if b == [] then false
    else a[0] < b[0] || (a[0] == b[0] && Below(a[1..], b[1..]))
  }

  lemma {:induction false} BelowIrreflexive(a: string)
    ensures !Below(a, a)
    decreases |a|
  {
    if a != [] {
      BelowIrreflexive(a[1..]);
    }
  }

  lemma {:induction false} BelowAsymmetric(a: string, b: string)
    requires Below(a, b)
    ensures !Below(b, a)
    decreases |a|
  {
    if a != [] && b != [] && a[0] == b[0] {
      BelowAsymmetric(a[1..], b[1..]);
    }
  }

  lemma {:induction false} BelowTransitive(a: string, b: string, c: string)
    requires Below(a, b) && Below(b, c)
    ensures Below(a, c)
    decreases |a|
  {
    if a != [] && a[0] == b[0] && b[0] == c[0] {
      BelowTransitive(a[1..], b[1..], c[1..]);
    }
  }

  lemma {:induction false} BelowTotal(a: string, b: string)
    ensures a == b || Below(a, b) || Below(b, a)
    decreases |a|
  {
    if a != [] && b != [] && a[0] == b[0] {
      BelowTotal(a[1..], b[1..]);
      if a[1..] == b[1..] {
        assert a == [a[0]] + a[1..] && b == [b[0]] + b[1..];
      }
    }
  }

  /** Strictly increasing in String order: sorted and free of duplicates. */
  predicate Ascending(s: seq<string>)
  {
    forall i, j :: 0 <= i < j < |s| ==> Below(s[i], s[j])
  }

  /** `m` is the least element of `s` in String order. */
  predicate IsLeast(m: string, s: set<string>)
  {
    m in s && forall y :: y in s && y != m ==> Below(m, y)
  }

  lemma {:induction false} LeastExists(s: set<string>)
    requires s != {}
    ensures exists m :: IsLeast(m, s)
    decreases |s|
  {
    var x :| x in s;
    var rest := s - {x};
    if rest == {} {
      assert s == {x};
      assert IsLeast(x, s);
    } else {
      LeastExists(rest);
      var m :| IsLeast(m, rest);
      BelowTotal(x, m);
      if Below(x, m) {
        forall y | y in s && y != x
          ensures Below(x, y)
        {
          if y != m {
            BelowTransitive(x, m, y);
          }
        }
        assert IsLeast(x, s);
      } else {
        assert IsLeast(m, s);
      }
    }
  }

  lemma LeastUnique(s: set<string>)
    ensures forall a, b :: IsLeast(a, s) && IsLeast(b, s) ==> a == b
  {
    forall a, b | IsLeast(a, s) && IsLeast(b, s)
      ensures a == b
    {
      if a != b {
        BelowAsymmetric(a, b);
      }
    }
  }

  /** The least key of a non-empty set in String order. */
  function Least(s: set<string>): (m: string)
    requires s != {}
    ensures IsLeast(m, s)
  {
    LeastExists(s);
    LeastUnique(s);
    var m :| IsLeast(m, s);
    m
  }

  /** `Array(keys.sorted())` for a set of keys. */
  function SortedKeys(s: set<string>): (r: seq<string>)
    ensures |r| == |s|
    ensures forall x :: x in r <==> x in s
    ensures Ascending(r)
    decreases |s|
  {
    if s == {} then []
    else
      var m := Least(s);
      var rest := SortedKeys(s - {m});
      assert forall j :: 0 <= j < |rest| ==> rest[j] in s - {m};
      [m] + rest
  }

  /** Two keys are listed in their String order. */
  lemma SortedPair(a: string, b: string)
    requires Below(a, b)
    ensures SortedKeys({a, b}) == [a, b]
  {
    BelowIrreflexive(a);
    BelowAsymmetric(a, b);
    var r := SortedKeys({a, b});
    assert |{a, b}| == 2;
    assert r[0] in {a, b} && r[1] in {a, b};
    assert Below(r[0], r[1]);
  }

  /** One key is listed alone. */
  lemma SortedSingle(a: string)
    ensures SortedKeys({a}) == [a]
  {
    var r := SortedKeys({a});
    assert r[0] in {a};
  }

  /** `lowercased()` on the ASCII letters. */
  function LowerChar(c: char): char
  {
    if 'A' <= c <= 'Z' then (c as int + 32) as char else c
  }

  /** The result has no upper-case ASCII letter left. */
  function Lowercased(s: string): (r: string)
    ensures |r| == |s|
    ensures forall i :: 0 <= i < |s| ==> r[i] == LowerChar(s[i])
    ensures forall i :: 0 <= i < |r| ==> !('A' <= r[i] <= 'Z')
  {
    seq(|s|, i requires 0 <= i < |s| => LowerChar(s[i]))
  }

  /** Lower-casing a lower-cased text changes nothing, so the search compares
      both sides in one canonical form. */
  lemma {:induction false} LowercasedIdempotent(s: string)
    ensures Lowercased(Lowercased(s)) == Lowercased(s)
  {
    var l := Lowercased(s);
    assert forall i :: 0 <= i < |l| ==> LowerChar(l[i]) == l[i];
  }

  /** `uppercased()` on the ASCII letters. */
  function UpperChar(c: char): char
  {
    if 'a' <= c <= 'z' then (c as int - 32) as char else c
  }

  /** `capitalized`: each word starts with an upper-case letter and goes on
      in lower case; words are separated by spaces. */
  function Capitalized(s: string): string
  {
    seq(|s|, i requires 0 <= i < |s| => if i == 0 || s[i - 1] == ' ' then UpperChar(s[i]) else LowerChar(s[i]))
  }

  /** The decisions the feed shows and sends are capitalised to the words
      "Accepted", "Rejected" and "Pending". */
  lemma DecisionsCapitalized()
    ensures Capitalized("accepted") == "Accepted"
    ensures Capitalized("rejected") == "Rejected"
    ensures Capitalized("pending") == "Pending"
  {
  }

  predicate StartsWith(s: string, prefix: string)
  {
    |prefix| <= |s| && s[..|prefix|] == prefix
  }

  /** `String.contains(_:)` for a non-empty or empty needle. */
  predicate Contains(haystack: string, needle: string)
    decreases |haystack|
  {
    StartsWith(haystack, needle) || (haystack != [] && Contains(haystack[1..], needle))
  }

  /** The needle occurs in the haystack starting at position `i`. */
  predicate OccursAt(haystack: string, needle: string, i: int)
  {
    0 <= i && i + |needle| <= |haystack| && haystack[i..i + |needle|] == needle
  }

  /** `Contains` finds the needle exactly when it occurs at some position. */
  lemma {:induction false} ContainsAt(haystack: string, needle: string)
    ensures Contains(haystack, needle) <==> exists i :: OccursAt(haystack, needle, i)
    decreases |haystack|
  {
    var h := haystack;
    if h != [] {
      ContainsAt(h[1..], needle);
      if StartsWith(h, needle) {
        assert OccursAt(h, needle, 0);
      } else if Contains(h[1..], needle) {
        var i :| OccursAt(h[1..], needle, i);
        assert h[i + 1..i + 1 + |needle|] == h[1..][i..i + |needle|];
        assert OccursAt(h, needle, i + 1);
      }
      if exists i :: OccursAt(h, needle, i) {
        var i :| OccursAt(h, needle, i);
        if i > 0 {
          assert h[1..][i - 1..i - 1 + |needle|] == h[i..i + |needle|];
          assert OccursAt(h[1..], needle, i - 1);
        }
      }
    } else {
      if exists i :: OccursAt(h, needle, i) {
        assert needle == [];
        assert StartsWith(h, needle);
      }
      if Contains(h, needle) {
        assert OccursAt(h, needle, 0);
      }
    }
  }

  /** Every text contains the empty text. */
  lemma ContainsEmpty(haystack: string)
    ensures Contains(haystack, [])
  {
  }
}
