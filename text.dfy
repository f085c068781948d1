/**
 * The text sanitiser of the crawler (`YelpCrawler.sanitize_element_text`):
 * Python's `str.strip()` followed by `str.replace(symbol, "")` for each symbol in turn.
 */
module Text {
  import opened Wrappers

  /** A parsed element, reduced to what the crawler reads from it: its text and its `href` attribute. */
  datatype Node = Node(text: string, href: Option<string>)

  /** The characters Python's `str.strip()` removes (those for which `str.isspace()` holds). */
  predicate IsSpace(c: char) {
    var k := c as int;
    (9 <= k <= 13) || (28 <= k <= 32) || k == 0x85 || k == 0xA0 || k == 0x1680
    || (0x2000 <= k <= 0x200A) || k == 0x2028 || k == 0x2029 || k == 0x202F
    || k == 0x205F || k == 0x3000
  }

  /** Drops leading whitespace. */
  function TrimLeft(s: string): (r: string)
    ensures |r| <= |s|
  {
    if |s| > 0 && IsSpace(s[0]) then TrimLeft(s[1..]) else s
  }

  /** Drops trailing whitespace. */
  function TrimRight(s: string): (r: string)
    ensures |r| <= |s|
  {
    if |s| > 0 && IsSpace(s[|s| - 1]) then TrimRight(s[..|s| - 1]) else s
  }

  /** `s.strip()` with no argument. */
  function Strip(s: string): (r: string)
    ensures |r| <= |s|
  {
    TrimRight(TrimLeft(s))
  }

  /** `TrimLeft` keeps a suffix that does not begin with whitespace; all it drops is whitespace. */
  lemma {:induction false} TrimLeftShape(s: string)
    ensures var r := TrimLeft(s);
      |r| <= |s| && r == s[|s| - |r|..]
      && (forall k :: 0 <= k < |s| - |r| ==> IsSpace(s[k]))
      && (|r| > 0 ==> !IsSpace(r[0]))
    decreases |s|
  {
    if |s| > 0 && IsSpace(s[0]) {
      TrimLeftShape(s[1..]);
    }
  }

  /** `TrimRight` keeps a prefix that does not end with whitespace; all it drops is whitespace. */
  lemma {:induction false} TrimRightShape(s: string)
    ensures var r := TrimRight(s);
      |r| <= |s| && r == s[..|r|]
      && (forall k :: |r| <= k < |s| ==> IsSpace(s[k]))
      && (|r| > 0 ==> !IsSpace(r[|r| - 1]))
    decreases |s|
  {
    if |s| > 0 && IsSpace(s[|s| - 1]) {
      TrimRightShape(s[..|s| - 1]);
    }
  }

  /**
   * `Strip(s)` is the slice of `s` left once the whitespace margins are cut: it neither begins
   * nor ends with whitespace, and everything of `s` outside it is whitespace.
   */
  lemma StripShape(s: string)
    ensures var r := Strip(s);
      (|r| > 0 ==> !IsSpace(r[0]) && !IsSpace(r[|r| - 1]))
      && var i := |s| - |TrimLeft(s)|;
      i + |r| <= |s| && r == s[i..i + |r|]
      && (forall k :: 0 <= k < i ==> IsSpace(s[k]))
      && (forall k :: i + |r| <= k < |s| ==> IsSpace(s[k]))
  {
    TrimLeftShape(s);
    TrimRightShape(TrimLeft(s));
  }

  /**
   * `s.replace(symbol, "")`: deletes the non-overlapping occurrences of `symbol`, found left to
   * right. Replacing the empty string by the empty string leaves `s` as it is.
   */
  function RemoveAll(s: string, symbol: string): (r: string)
    ensures |r| <= |s|
    decreases |s|
  {
    if |symbol| == 0 || |s| < |symbol| then s
    else if s[..|symbol|] == symbol then RemoveAll(s[|symbol|..], symbol)
    else [s[0]] + RemoveAll(s[1..], symbol)
  }

  /** The loop `for symbol in symbols: text = text.replace(symbol, "")`, in list order. */
  function RemoveSymbols(s: string, symbols: seq<string>): (r: string)
    ensures |r| <= |s|
    decreases |symbols|
  {
    if symbols == [] then s else RemoveSymbols(RemoveAll(s, symbols[0]), symbols[1..])
  }

  /** What `sanitize_element_text(element, symbols)` returns. */
  function Sanitize(element: Option<Node>, symbols: seq<string>): (r: Option<string>)
    ensures r.None? <==> element.None?
  {
    match element
    case None => None
    case Some(node) => Some(RemoveSymbols(Strip(node.text), symbols))
  }

  /** Stripping twice is stripping once. */
  lemma StripIdempotent(s: string)
    ensures Strip(Strip(s)) == Strip(s)
  {
    var r := Strip(s);
    StripShape(s);
    assert TrimLeft(r) == r;
    assert TrimRight(r) == r;
  }

  /** Without symbols, the sanitiser returns the stripped text, and sanitising again changes nothing. */
  lemma SanitizeWithoutSymbols(node: Node)
    ensures Sanitize(Some(node), []) == Some(Strip(node.text))
    ensures Sanitize(Some(Node(Strip(node.text), node.href)), []) == Some(Strip(node.text))
  {
    StripIdempotent(node.text);
  }

  /** Removing a one-character symbol deletes that character everywhere and keeps every other one. */
  lemma {:induction false} RemoveCharCounts(s: string, c: char)
    ensures c !in RemoveAll(s, [c])
    ensures forall x :: x != c ==> multiset(RemoveAll(s, [c]))[x] == multiset(s)[x]
    decreases |s|
  {
    if |s| > 0 {
      RemoveCharCounts(s[1..], c);
      assert s == [s[0]] + s[1..];
      if s[0] == c {
        assert s[..1] == [c];
        assert RemoveAll(s, [c]) == RemoveAll(s[1..], [c]);
      } else {
        assert s[..1] != [c];
        assert RemoveAll(s, [c]) == [s[0]] + RemoveAll(s[1..], [c]);
      }
    }
  }

  /** The characters of `s` that are not in `drop`, in their order in `s`. */
  function Filter(s: string, drop: set<char>): (r: string)
    ensures |r| <= |s|
    decreases |s|
  {
    if s == [] then []
    else (if s[0] in drop then [] else [s[0]]) + Filter(s[1..], drop)
  }

  /** A character is in the filtered text exactly when it is in the text and not dropped. */
  lemma {:induction false} FilterMembers(s: string, drop: set<char>)
    ensures forall x :: x in Filter(s, drop) <==> x in s && x !in drop
    decreases |s|
  {
    if s != [] {
      FilterMembers(s[1..], drop);
      assert s == [s[0]] + s[1..];
    }
  }

  /** Filtering by `a`, then by `b`, is filtering by both at once. */
  lemma {:induction false} FilterTwice(s: string, a: set<char>, b: set<char>)
    ensures Filter(Filter(s, a), b) == Filter(s, a + b)
    decreases |s|
  {
    if s != [] {
      FilterTwice(s[1..], a, b);
      var rest := Filter(s[1..], a);
      if s[0] in a {
        assert Filter(s, a) == rest;
      } else {
        var f := [s[0]] + rest;
        assert Filter(s, a) == f;
        assert f[0] == s[0] && f[1..] == rest;
      }
    }
  }

  /** Replacing a one-character symbol by nothing keeps every other character, in order. */
  lemma {:induction false} RemoveCharIsFilter(s: string, c: char)
    ensures RemoveAll(s, [c]) == Filter(s, {c})
    decreases |s|
  {
    if s != [] {
      RemoveCharIsFilter(s[1..], c);
      if s[0] == c {
        assert s[..1] == [c];
      } else {
        assert s[..1] != [c];
      }
    }
  }

  /** The characters of the one-character symbols of a list. */
  function SymbolChars(symbols: seq<string>): set<char> {
    set i | 0 <= i < |symbols| && |symbols[i]| == 1 :: symbols[i][0]
  }

  /**
   * With one-character symbols, the removal loop keeps exactly the characters that are not
   * symbols, in their original order.
   */
  lemma {:induction false} RemoveSymbolsIsFilter(s: string, symbols: seq<string>)
    requires forall i :: 0 <= i < |symbols| ==> |symbols[i]| == 1
    ensures RemoveSymbols(s, symbols) == Filter(s, SymbolChars(symbols))
    decreases |symbols|
  {
    if symbols == [] {
      assert SymbolChars(symbols) == {};
      FilterNothing(s);
    } else {
      var c := symbols[0][0];
      assert symbols[0] == [c];
      RemoveCharIsFilter(s, c);
      RemoveSymbolsIsFilter(Filter(s, {c}), symbols[1..]);
      FilterTwice(s, {c}, SymbolChars(symbols[1..]));
      assert SymbolChars(symbols) == {c} + SymbolChars(symbols[1..]) by {
        forall x | x in SymbolChars(symbols)
          ensures x in {c} + SymbolChars(symbols[1..])
        {
          var i :| 0 <= i < |symbols| && |symbols[i]| == 1 && symbols[i][0] == x;
          if i > 0 {
            assert symbols[1..][i - 1] == symbols[i];
          }
        }
        forall x | x in SymbolChars(symbols[1..])
          ensures x in SymbolChars(symbols)
        {
          var i :| 0 <= i < |symbols[1..]| && |symbols[1..][i]| == 1 && symbols[1..][i][0] == x;
          assert symbols[i + 1] == symbols[1..][i];
        }
      }
    }
  }

  /** Filtering by the empty set changes nothing. */
  lemma {:induction false} FilterNothing(s: string)
    ensures Filter(s, {}) == s
    decreases |s|
  {
    if s != [] {
      FilterNothing(s[1..]);
    }
  }

  /**
   * With one-character symbols, the order of the list does not matter: two lists holding the
   * same symbols remove the same characters and give the same text.
   */
  lemma SingleCharSymbolOrder(s: string, symbols: seq<string>, reordered: seq<string>)
    requires forall i :: 0 <= i < |symbols| ==> |symbols[i]| == 1
    requires forall x :: x in symbols <==> x in reordered
    ensures RemoveSymbols(s, symbols) == RemoveSymbols(s, reordered)
  {
    assert forall i :: 0 <= i < |reordered| ==> reordered[i] in symbols;
    RemoveSymbolsIsFilter(s, symbols);
    RemoveSymbolsIsFilter(s, reordered);
    assert SymbolChars(symbols) == SymbolChars(reordered) by {
      forall x | x in SymbolChars(symbols)
        ensures x in SymbolChars(reordered)
      {
        var i :| 0 <= i < |symbols| && |symbols[i]| == 1 && symbols[i][0] == x;
        assert symbols[i] in reordered;
        var j :| 0 <= j < |reordered| && reordered[j] == symbols[i];
      }
      forall x | x in SymbolChars(reordered)
        ensures x in SymbolChars(symbols)
      {
        var j :| 0 <= j < |reordered| && |reordered[j]| == 1 && reordered[j][0] == x;
        assert reordered[j] in symbols;
        var i :| 0 <= i < |symbols| && symbols[i] == reordered[j];
      }
    }
  }

  /** The parentheses of a review count can be removed in either order. */
  lemma ParenthesesInEitherOrder(s: string)
    ensures RemoveSymbols(s, ["(", ")"]) == RemoveSymbols(s, [")", "("])
  {
    SingleCharSymbolOrder(s, ["(", ")"], [")", "("]);
  }

  /**
   * With one-character symbols, none of those characters survives the removal loop, and every
   * other character keeps its number of occurrences.
   */
  lemma {:induction false} RemoveSingleCharSymbols(s: string, symbols: seq<string>)
    requires forall i :: 0 <= i < |symbols| ==> |symbols[i]| == 1
    ensures forall i :: 0 <= i < |symbols| ==> symbols[i][0] !in RemoveSymbols(s, symbols)
    ensures forall x :: (forall i :: 0 <= i < |symbols| ==> symbols[i] != [x]) ==>
      multiset(RemoveSymbols(s, symbols))[x] == multiset(s)[x]
    decreases |symbols|
  {
    if symbols != [] {
      var c := symbols[0][0];
      assert symbols[0] == [c];
      var t := RemoveAll(s, [c]);
      RemoveCharCounts(s, c);
      var rest := symbols[1..];
      RemoveSingleCharSymbols(t, rest);
      assert RemoveSymbols(s, symbols) == RemoveSymbols(t, rest);
      var r := RemoveSymbols(t, rest);
      if exists j :: 0 <= j < |rest| && rest[j] == [c] {
        var j :| 0 <= j < |rest| && rest[j] == [c];
        assert rest[j][0] == c;
      } else {
        assert multiset(r)[c] == multiset(t)[c] == 0;
      }
      assert c !in r;
      forall i | 0 <= i < |symbols|
        ensures symbols[i][0] !in r
      {
        if i > 0 { assert symbols[i] == rest[i - 1]; }
      }
      forall x | forall i :: 0 <= i < |symbols| ==> symbols[i] != [x]
        ensures multiset(r)[x] == multiset(s)[x]
      {
        assert x != c;
        assert forall i :: 0 <= i < |rest| ==> rest[i] == symbols[i + 1];
      }
    }
  }

  /**
   * `sanitize_element_text` with one-character symbols (the `"("`, `")"` of a review count):
   * the result holds none of them, is no longer than the stripped text, and is the stripped text
   * with exactly those characters deleted, every other one kept as often and in the same order.
   * The count clause follows from the `Filter` clause too; it stays because it is the form the
   * two count lemmas above prove by induction on `RemoveAll` directly, without `Filter`, and
   * so serves as an independent check of it.
   */
  lemma SanitizeSingleCharSymbols(node: Node, symbols: seq<string>)
    requires forall i :: 0 <= i < |symbols| ==> |symbols[i]| == 1
    ensures Sanitize(Some(node), symbols).Some?
    ensures var r := Sanitize(Some(node), symbols).value;
      |r| <= |Strip(node.text)|
      && (forall i :: 0 <= i < |symbols| ==> symbols[i][0] !in r)
      && (forall x :: (forall i :: 0 <= i < |symbols| ==> symbols[i] != [x]) ==>
            multiset(r)[x] == multiset(Strip(node.text))[x])
      && r == Filter(Strip(node.text), SymbolChars(symbols))
  {
    RemoveSingleCharSymbols(Strip(node.text), symbols);
    RemoveSymbolsIsFilter(Strip(node.text), symbols);
  }

  /** Strip on the texts of the idempotence counterexample below. */
  lemma StripSamples()
    ensures Strip("( )") == "( )"
    ensures Strip(" ") == ""
  {
  }

  /** Removing the parentheses from the texts of the idempotence counterexample below. */
  lemma RemoveParenSamples()
    ensures RemoveSymbols("( )", ["(", ")"]) == " "
    ensures RemoveSymbols("", ["(", ")"]) == ""
  {
    assert RemoveAll("( )", "(") == " )" by {
      assert RemoveAll(")", "(") == ")";
      assert " )"[..1] != "(";
      assert RemoveAll(" )", "(") == " " + RemoveAll(")", "(");
      assert "( )"[..1] == "(";
      assert RemoveAll("( )", "(") == RemoveAll(" )", "(");
    }
    assert RemoveAll(" )", ")") == " " by {
      assert ")"[..1] == ")";
      assert RemoveAll(")", ")") == "";
      assert " )"[..1] != ")";
      assert RemoveAll(" )", ")") == " " + RemoveAll(")", ")");
    }
    assert ["(", ")"][1..] == [")"];
    assert RemoveSymbols(" )", [")"]) == RemoveSymbols(" ", []);
  }

  /**
   * Sanitising is not idempotent once symbols are removed: removal can expose whitespace that
   * the earlier strip did not see. `"( )"` sanitises to `" "`, which sanitises to `""`.
   */
  lemma SanitizeNotIdempotent()
    ensures Sanitize(Some(Node("( )", None)), ["(", ")"]) == Some(" ")
    ensures Sanitize(Some(Node(" ", None)), ["(", ")"]) == Some("")
  {
    StripSamples();
    RemoveParenSamples();
  }

  /**
   * The order of the symbols matters once one of them is longer than one character:
   * `"abc"` loses everything with `["b", "ac"]` but keeps `"ac"` with `["ac", "b"]`.
   */
  lemma SymbolOrderMatters()
    ensures RemoveSymbols("abc", ["b", "ac"]) == ""
    ensures RemoveSymbols("abc", ["ac", "b"]) == "ac"
  {
    assert "abc"[..1] != "b" && "bc"[..1] == "b" && "c"[..1] != "b";
    assert RemoveAll("abc", "b") == "ac" by {
      assert RemoveAll("c", "b") == "c" + RemoveAll("", "b");
      assert RemoveAll("bc", "b") == RemoveAll("c", "b");
      assert RemoveAll("abc", "b") == "a" + RemoveAll("bc", "b");
    }
    assert "ac"[..2] == "ac";
    assert RemoveAll("ac", "ac") == RemoveAll("", "ac");
    assert RemoveSymbols("ac", ["ac"]) == RemoveSymbols("", []);
    assert "abc"[..2] != "ac" && "bc"[..2] != "ac";
    assert RemoveAll("abc", "ac") == "abc" by {
      assert RemoveAll("c", "ac") == "c";
      assert RemoveAll("bc", "ac") == "b" + RemoveAll("c", "ac");
      assert RemoveAll("abc", "ac") == "a" + RemoveAll("bc", "ac");
    }
    assert RemoveSymbols("abc", ["ac", "b"]) == RemoveSymbols("abc", ["b"]);
    assert RemoveSymbols("ac", []) == "ac";
  }
}
