/**
  Identifier derivation: parameter names in kebab-case become PascalCase
  namespace keys ("post-dev-steps" becomes "PostDevSteps").
 */
module Utils {
  import opened Strings

  /** unicode.ToUpper, for the ASCII letters; every other rune maps to itself. */
  function ToUpper(ch: char): (u: char)
    ensures ('a' <= ch <= 'z') == (u != ch)
    ensures !('a' <= u <= 'z')  || u == ch
    ensures 'a' <= ch <= 'z' ==> 'A' <= u <= 'Z' && u as int - 'A' as int == ch as int - 'a' as int
  {
    if 'a' <= ch <= 'z' then (ch as int - 32) as char else ch
  }

  /** A segment with its first rune upper-cased and the rest unchanged. */
  function Capitalize(w: string): (r: string)
    ensures |r| == |w|
    ensures r != [] ==> r[0] == ToUpper(w[0]) && r[1..] == w[1..]
  {
    if w == [] then [] else [ToUpper(w[0])] + w[1..]
  }

  /** A segment that does not start with a lower-case letter is left as it is. */
  lemma CapitalizeKeepsCapital(w: string)
    requires w == [] || !('a' <= w[0] <= 'z')
    ensures Capitalize(w) == w
  {
    if w != [] {
      assert [w[0]] + w[1..] == w;
    }
  }

  /** Every segment capitalized, in order. */
  function CapitalizeAll(parts: seq<string>): (r: seq<string>)
    ensures |r| == |parts|
    ensures forall i :: 0 <= i < |parts| ==> r[i] == Capitalize(parts[i])
  {
    seq(|parts|, i requires 0 <= i < |parts| => Capitalize(parts[i]))
  }

  /** The derived identifier of a parameter name: split on '-', capitalize, join. */
  function CamelCase(name: string): string
  {
    Join(CapitalizeAll(Split(name, '-')), "")
  }

  /**
    toCamelCase: the pieces of the split are rewritten in place, one by one,
    before being joined.
   */
  method ToCamelCase(paramName: string) returns (r: string)
    ensures r == CamelCase(paramName)
    ensures '-' !in r
    ensures |r| == |paramName| - Count(paramName, '-')
  {
    var parts := Split(paramName, '-');
    ghost var pieces := parts;
    for i := 0 to |parts|
      invariant |parts| == |pieces|
      invariant forall j :: 0 <= j < i ==> parts[j] == Capitalize(pieces[j])
      invariant forall j :: i <= j < |parts| ==> parts[j] == pieces[j]
    {
      if |parts[i]| > 0 {
        var runes := parts[i];
        runes := runes[0 := ToUpper(runes[0])];
        parts := parts[i := runes];
      }
    }
    assert parts == CapitalizeAll(pieces);
    r := Join(parts, "");
    CamelCaseHasNoHyphen(paramName);
    CamelCaseLength(paramName);
  }

  // ---------------------------------------------------------------------
  // Properties of the derivation
  // ---------------------------------------------------------------------

  /** A name without hyphens is a single segment: only its first rune changes. */
  lemma CamelCaseOfSegment(w: string)
    requires '-' !in w
    ensures CamelCase(w) == Capitalize(w)
  {
    SplitNoSep(w, '-');
    assert CapitalizeAll([w]) == [Capitalize(w)];
  }

  /**
    The derivation maps a hyphen to concatenation: the segments on either side
    are derived independently and joined with nothing between them.
   */
  lemma CamelCaseOfHyphenated(a: string, b: string)
    ensures CamelCase(a + "-" + b) == CamelCase(a) + CamelCase(b)
  {
    var sa, sb := Split(a, '-'), Split(b, '-');
    var ca, cb := CapitalizeAll(sa), CapitalizeAll(sb);
    calc {
      CamelCase(a + "-" + b);
    == { assert a + "-" + b == a + ['-'] + b; SplitAppend(a, b, '-'); }
      Join(CapitalizeAll(sa + sb), "");
    == { assert CapitalizeAll(sa + sb) == ca + cb; }
      Join(ca + cb, "");
    == { JoinEmptyAppend(ca, cb); }
      Join(ca, "") + Join(cb, "");
    }
  }

  /** The empty name derives the empty identifier. */
  lemma EmptyNameVanishes()
    ensures CamelCase("") == ""
  {
    CamelCaseOfSegment("");
  }

  /** A leading hyphen contributes nothing. */
  lemma LeadingHyphenVanishes(b: string)
    ensures CamelCase("-" + b) == CamelCase(b)
  {
    EmptyNameVanishes();
    CamelCaseOfHyphenated("", b);
    assert "" + "-" + b == "-" + b;
  }

  /** A trailing hyphen contributes nothing. */
  lemma TrailingHyphenVanishes(a: string)
    ensures CamelCase(a + "-") == CamelCase(a)
  {
    EmptyNameVanishes();
    CamelCaseOfHyphenated(a, "");
    assert a + "-" + "" == a + "-";
  }

  /** A doubled hyphen derives what a single one does. */
  lemma DoubledHyphenVanishes(a: string, b: string)
    ensures CamelCase(a + "--" + b) == CamelCase(a + "-" + b)
  {
    LeadingHyphenVanishes(b);
    CamelCaseOfHyphenated(a, "-" + b);
    assert a + "-" + ("-" + b) == a + "--" + b;
    CamelCaseOfHyphenated(a, b);
  }

  /** Splitting a name at its first hyphen. */
  lemma SplitAtFirstHyphen(s: string) returns (a: string, b: string)
    requires '-' in s
    ensures s == a + "-" + b && '-' !in a && |b| < |s|
  {
    var i := IndexOf(s, '-');
    a, b := s[..i], s[i + 1..];
    assert s == s[..i] + [s[i]] + s[i + 1..];
  }

  /**
    Each segment appears in order with only its first rune upper-cased: the
    identifier of hyphen-joined segments is the concatenation of the
    capitalized segments.
   */
  lemma {:induction false} CamelCaseOfSegments(segments: seq<string>)
    requires |segments| >= 1
    requires forall i :: 0 <= i < |segments| ==> '-' !in segments[i]
    ensures CamelCase(Join(segments, "-")) == Concat(CapitalizeAll(segments))
  {
    SplitJoin(segments, '-');
    JoinEmptyIsConcat(CapitalizeAll(segments));
  }

  /** Hyphens only separate segments; none survives. */
  lemma {:induction false} CamelCaseHasNoHyphen(s: string)
    ensures '-' !in CamelCase(s)
    decreases |s|
  {
    if '-' !in s {
      CamelCaseOfSegment(s);
    } else {
      var a, b := SplitAtFirstHyphen(s);
      CamelCaseOfSegment(a);
      CamelCaseOfHyphenated(a, b);
      CamelCaseHasNoHyphen(b);
    }
  }

  /** Upper-casing never changes the rune count: only the hyphens disappear. */
  lemma {:induction false} CamelCaseLength(s: string)
    ensures |CamelCase(s)| == |s| - Count(s, '-')
    decreases |s|
  {
    if '-' !in s {
      CamelCaseOfSegment(s);
      CountAbsent(s, '-');
    } else {
      var a, b := SplitAtFirstHyphen(s);
      CamelCaseOfSegment(a);
      CamelCaseOfHyphenated(a, b);
      CamelCaseLength(b);
      CountAppend(a + "-", b, '-');
      CountAppend(a, "-", '-');
      CountAbsent(a, '-');
    }
  }

  /** The first rune of an identifier is already upper case. */
  lemma {:induction false} CamelCaseHead(s: string)
    ensures CamelCase(s) == "" || ToUpper(CamelCase(s)[0]) == CamelCase(s)[0]
    decreases |s|
  {
    if '-' !in s {
      CamelCaseOfSegment(s);
    } else {
      var a, b := SplitAtFirstHyphen(s);
      CamelCaseOfSegment(a);
      CamelCaseOfHyphenated(a, b);
      CamelCaseHead(b);
    }
  }

  /** No identifier starts with a lower-case ASCII letter. */
  lemma CamelCaseNotLowerInitial(s: string)
    ensures CamelCase(s) == "" || !('a' <= CamelCase(s)[0] <= 'z')
  {
    CamelCaseHead(s);
  }

  /** Deriving an identifier from an identifier changes nothing. */
  lemma {:induction false} CamelCaseIdempotent(s: string)
    ensures CamelCase(CamelCase(s)) == CamelCase(s)
  {
    var t := CamelCase(s);
    CamelCaseHasNoHyphen(s);
    CamelCaseOfSegment(t);
    CamelCaseHead(s);
    if t != [] {
      assert [t[0]] + t[1..] == t;
    }
  }

  // The derivations the resolver's tests expect. The names are passed in as
  // parameters (segment by segment for the longer ones) so that the verifier
  // reasons through the lemmas above instead of unfolding the split of a
  // literal rune by rune.

  /** "single" becomes "Single". */
  lemma CamelCaseOfSingle(name: string)
    requires name == "single"
    ensures CamelCase(name) == "Single"
  {
    CamelCaseOfSegment(name);
  }

  /** A three-segment name is the three capitalized segments, concatenated. */
  lemma CamelCaseOfThreeSegments(a: string, b: string, c: string)
    requires '-' !in a && '-' !in b && '-' !in c
    ensures CamelCase(a + "-" + b + "-" + c) == Capitalize(a) + Capitalize(b) + Capitalize(c)
  {
    CamelCaseOfSegment(a);
    CamelCaseOfSegment(b);
    CamelCaseOfSegment(c);
    CamelCaseOfHyphenated(a, b);
    CamelCaseOfHyphenated(a + "-" + b, c);
  }

  /** "post-dev-steps" becomes "PostDevSteps". */
  lemma CamelCaseOfPostDevSteps(post: string, dev: string, steps: string)
    requires post == "post" && dev == "dev" && steps == "steps"
    ensures CamelCase(post + "-" + dev + "-" + steps) == "Post" + "Dev" + "Steps"
  {
    CamelCaseOfThreeSegments(post, dev, steps);
  }

  /** "with-numbers-123" becomes "WithNumbers123": digits are left alone. */
  lemma CamelCaseOfWithNumbers(with: string, numbers: string, digits: string)
    requires with == "with" && numbers == "numbers" && digits == "123"
    ensures CamelCase(with + "-" + numbers + "-" + digits) == "With" + "Numbers" + digits
  {
    CamelCaseOfThreeSegments(with, numbers, digits);
    assert digits[0] == '1';
    CapitalizeKeepsCapital(digits);
  }

  /** "already-Capitalized-Words" becomes "AlreadyCapitalizedWords": capitals stay. */
  lemma CamelCaseOfCapitalized(already: string, capitalized: string, words: string)
    requires already == "already" && capitalized == "Capitalized" && words == "Words"
    ensures CamelCase(already + "-" + capitalized + "-" + words) == "Already" + capitalized + words
  {
    CamelCaseOfThreeSegments(already, capitalized, words);
    assert capitalized[0] == 'C' && words[0] == 'W';
    CapitalizeKeepsCapital(capitalized);
    CapitalizeKeepsCapital(words);
    assert Capitalize(already) == "Already";
  }
}
