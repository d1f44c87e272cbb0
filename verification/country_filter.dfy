/** The country search: keep, in order, the countries whose lower-cased
    name contains the lower-cased search term. */
module CountryFilter {
  import opened Types

  /** `toLowerCase` on one character, for the ASCII and Latin-1 capitals. */
  function LowerChar(c: char): (d: char)
    ensures !('A' <= d <= 'Z')
    ensures 'A' <= c <= 'Z' ==> d as int == c as int + 32
    ensures '\U{00C0}' <= c <= '\U{00DE}' && c != '\U{00D7}' ==> d as int == c as int + 32
    ensures !('A' <= c <= 'Z') && !('\U{00C0}' <= c <= '\U{00DE}' && c != '\U{00D7}') ==> d == c
    ensures !('\U{00C0}' <= d <= '\U{00DE}' && d != '\U{00D7}')
  {
    if 'A' <= c <= 'Z' || ('\U{00C0}' <= c <= '\U{00DE}' && c != '\U{00D7}') then
      (c as int + 32) as char
    else
      c
  }

  /** `toLowerCase`: each character lower-cased, the length kept. */
  function ToLower(s: string): (r: string)
    ensures |r| == |s|
    ensures forall i :: 0 <= i < |s| ==> r[i] == LowerChar(s[i])
  {
    if s == [] then [] else [LowerChar(s[0])] + ToLower(s[1..])
  }

  /** Lower-casing twice is lower-casing once. */
  lemma {:induction false} ToLowerIdempotent(s: string)
    ensures ToLower(ToLower(s)) == ToLower(s)
  {
    if s != [] {
      ToLowerIdempotent(s[1..]);
      assert ToLower(s)[1..] == ToLower(s[1..]);
    }
  }

  /** `needle` occurs in `hay` starting at position `i`. */
  ghost predicate OccursAt(hay: string, needle: string, i: int)
  {
    0 <= i && i + |needle| <= |hay| && hay[i..i + |needle|] == needle
  }

  /** `hay.includes(needle)`, by trying each starting position in turn. */
  function Includes(hay: string, needle: string): (b: bool)
    ensures needle == [] ==> b
    ensures b ==> |needle| <= |hay|
    decreases |hay|
  {
    (|needle| <= |hay| && hay[..|needle|] == needle) || (|hay| > 0 && Includes(hay[1..], needle))
  }

  /** `Includes` holds exactly when the needle occurs at some position. */
  lemma {:induction false} IncludesIffOccurs(hay: string, needle: string)
    ensures Includes(hay, needle) <==> exists i :: OccursAt(hay, needle, i)
    decreases |hay|
  {
    if |needle| <= |hay| && hay[..|needle|] == needle {
      assert OccursAt(hay, needle, 0);
    } else if |hay| > 0 {
      IncludesIffOccurs(hay[1..], needle);
      if Includes(hay[1..], needle) {
        var i :| OccursAt(hay[1..], needle, i);
        assert hay[1..][i..i + |needle|] == hay[i + 1..i + 1 + |needle|];
        assert OccursAt(hay, needle, i + 1);
      } else if exists i :: OccursAt(hay, needle, i) {
        var i :| OccursAt(hay, needle, i);
        assert i != 0;
        assert hay[1..][i - 1..i - 1 + |needle|] == hay[i..i + |needle|];
        assert OccursAt(hay[1..], needle, i - 1);
        assert false;
      }
    } else {
      assert !exists i :: OccursAt(hay, needle, i);
    }
  }

  /** The filter's test for one country. */
  predicate Matches(c: Country, term: string): (b: bool)
    ensures term == [] ==> b
    ensures b ==> |term| <= |c.name|
  {
    Includes(ToLower(c.name), ToLower(term))
  }

  /** `countries.filter(...)`: the matching countries in their original order. */
  function Filter(countries: seq<Country>, term: string): (r: seq<Country>)
    ensures |r| <= |countries|
    ensures forall c :: c in r ==> c in countries && Matches(c, term)
  {
    if countries == [] then []
    else
      var rest := Filter(countries[1..], term);
      if Matches(countries[0], term) then [countries[0]] + rest else rest
  }

  /** `a` is `b` with some elements left out, the rest in the same order. */
  ghost predicate IsSubsequence<T>(a: seq<T>, b: seq<T>)
    decreases |b|
  {
    a == [] || (b != [] && ((a[0] == b[0] && IsSubsequence(a[1..], b[1..])) || IsSubsequence(a, b[1..])))
  }

  /** A country is kept exactly when it is in the input and matches. */
  lemma {:induction false} FilterMembership(countries: seq<Country>, term: string)
    ensures forall c :: c in Filter(countries, term) <==> c in countries && Matches(c, term)
  {
    if countries != [] {
      FilterMembership(countries[1..], term);
      forall c | c in countries && Matches(c, term) ensures c in Filter(countries, term) {
        if c != countries[0] {
          assert c in countries[1..];
        }
      }
    }
  }

  /** The result is a subsequence of the input: the order is kept. */
  lemma {:induction false} FilterKeepsOrder(countries: seq<Country>, term: string)
    ensures IsSubsequence(Filter(countries, term), countries)
  {
    if countries != [] {
      FilterKeepsOrder(countries[1..], term);
      var rest := Filter(countries[1..], term);
      if Matches(countries[0], term) {
        assert ([countries[0]] + rest)[1..] == rest;
      }
    }
  }

  /** The filter keeps every copy of a matching country and none of a
      non-matching one. */
  lemma {:induction false} FilterCount(countries: seq<Country>, term: string, c: Country)
    ensures multiset(Filter(countries, term))[c] == if Matches(c, term) then multiset(countries)[c] else 0
  {
    if countries != [] {
      FilterCount(countries[1..], term, c);
      assert countries == [countries[0]] + countries[1..];
      assert multiset(countries) == multiset([countries[0]]) + multiset(countries[1..]);
      var rest := Filter(countries[1..], term);
      if Matches(countries[0], term) {
        assert multiset([countries[0]] + rest) == multiset([countries[0]]) + multiset(rest);
      }
    }
  }

  /** An empty search term keeps every country. */
  lemma {:induction false} FilterEmptyTerm(countries: seq<Country>)
    ensures Filter(countries, "") == countries
  {
    if countries != [] {
      FilterEmptyTerm(countries[1..]);
      assert Matches(countries[0], "");
      assert [countries[0]] + countries[1..] == countries;
    }
  }

  /** Terms that lower-case to the same string select the same countries. */
  lemma {:induction false} FilterIgnoresCase(countries: seq<Country>, t1: string, t2: string)
    requires ToLower(t1) == ToLower(t2)
    ensures Filter(countries, t1) == Filter(countries, t2)
  {
    if countries != [] {
      FilterIgnoresCase(countries[1..], t1, t2);
    }
  }

  /** In particular, searching for the lower-cased term changes nothing. */
  lemma FilterLowerTerm(countries: seq<Country>, term: string)
    ensures Filter(countries, ToLower(term)) == Filter(countries, term)
  {
    ToLowerIdempotent(term);
    FilterIgnoresCase(countries, ToLower(term), term);
  }

  /** Filtering twice with the same term is filtering once. */
  lemma {:induction false} FilterIdempotent(countries: seq<Country>, term: string)
    ensures Filter(Filter(countries, term), term) == Filter(countries, term)
  {
    if countries != [] {
      FilterIdempotent(countries[1..], term);
      var rest := Filter(countries[1..], term);
      if Matches(countries[0], term) {
        assert ([countries[0]] + rest)[1..] == rest;
      }
    }
  }

  lemma ToLowerCons(c: char, s: string)
    ensures ToLower([c] + s) == [LowerChar(c)] + ToLower(s)
  {
    assert ([c] + s)[1..] == s;
  }

  lemma FranceMatchesFra()
    ensures ToLower("France") == "france" && ToLower("fra") == "fra" && ToLower("FRA") == "fra"
    ensures Includes("france", "fra")
  {
    ToLowerCons('e', ""); ToLowerCons('c', "e"); ToLowerCons('n', "ce");
    ToLowerCons('a', "nce"); ToLowerCons('r', "ance"); ToLowerCons('F', "rance");
    ToLowerCons('a', ""); ToLowerCons('r', "a"); ToLowerCons('f', "ra");
    ToLowerCons('A', ""); ToLowerCons('R', "A"); ToLowerCons('F', "RA");
    assert "france"[..3] == "fra";
  }

  lemma JapanHasNoFra()
    ensures ToLower("Japan") == "japan" && !Includes("japan", "fra")
  {
    ToLowerCons('n', ""); ToLowerCons('a', "n"); ToLowerCons('p', "an");
    ToLowerCons('a', "pan"); ToLowerCons('J', "apan");
    assert "japan"[..3][0] == 'j';
    assert "japan"[1..] == "apan";
    assert "apan"[..3][0] == 'a';
    assert "apan"[1..] == "pan";
    assert "pan"[..3][0] == 'p';
    assert "pan"[1..] == "an";
    assert "an"[1..] == "n";
    assert "n"[1..] == "";
  }

  /** Searching "FRA" or "fra" among France and Japan keeps France only. */
  lemma SearchExample()
    ensures var cs := [Country("France", "FR", "EUR", RoundUpOnly), Country("Japan", "JP", "JPY", NoTipping)];
      Filter(cs, "FRA") == [cs[0]] && Filter(cs, "fra") == [cs[0]]
  {
    var cs := [Country("France", "FR", "EUR", RoundUpOnly), Country("Japan", "JP", "JPY", NoTipping)];
    FranceMatchesFra();
    JapanHasNoFra();
    assert Matches(cs[0], "fra");
    assert !Matches(cs[1], "fra");
    assert cs[1..][1..] == [];
    assert Filter(cs[1..], "fra") == [];
    FilterIgnoresCase(cs, "FRA", "fra");
  }
}
