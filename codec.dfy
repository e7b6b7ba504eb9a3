/** Decoding of one line of the sensor's ASCII stream (`Sensor.read_stream`):
    clean the line, split it into tokens, read each token as an integer,
    scale it by the factor, and de-interleave the values into two channels. */
module Codec {
  import opened Results
  import opened Decimal

  /** Every integer read from the device is divided by this factor. */
  const FACTOR: nat := 1000

  // ---------------------------------------------------------------------
  // Cleaning: re.sub("[^0-9^ ]", "", line)
  // ---------------------------------------------------------------------

  /** The characters the class `[^0-9^ ]` does not match: the ASCII digits, the
      space and a literal caret (only the first `^` of the class negates). */
  predicate Kept(c: char) { IsDigit(c) || c == ' ' || c == '^' }

  predicate OnlyKept(s: string) { forall i :: 0 <= i < |s| ==> Kept(s[i]) }

  /** The line with every character that is not kept deleted, the rest in order. */
  function Clean(line: string): (r: string)
    ensures |r| <= |line|
    ensures OnlyKept(r)
  {
    if line == [] then []
    else (if Kept(line[0]) then [line[0]] else []) + Clean(line[1..])
  }

  /** Cleaning keeps every kept character as often as it occurs and drops all others. */
  lemma {:induction false} CleanCounts(line: string)
    ensures forall c :: multiset(Clean(line))[c] == if Kept(c) then multiset(line)[c] else 0
  {
    if line != [] {
      CleanCounts(line[1..]);
      assert line == [line[0]] + line[1..];
    }
  }

  /** Cleaning works character by character, so it distributes over concatenation. */
  lemma {:induction false} CleanAppend(a: string, b: string)
    ensures Clean(a + b) == Clean(a) + Clean(b)
  {
    if a != [] {
      assert (a + b)[0] == a[0];
      assert (a + b)[1..] == a[1..] + b;
      CleanAppend(a[1..], b);
    } else {
      assert a + b == b;
    }
  }

  /** A line is left unchanged exactly when it holds only kept characters. */
  lemma {:induction false} CleanFixedPoints(line: string)
    ensures Clean(line) == line <==> OnlyKept(line)
  {
    if line != [] {
      CleanFixedPoints(line[1..]);
      if OnlyKept(line) {
        assert OnlyKept(line[1..]);
      }
    }
  }

  /** Cleaning a cleaned line changes nothing. */
  lemma CleanIdempotent(line: string)
    ensures Clean(Clean(line)) == Clean(line)
  {
    CleanFixedPoints(Clean(line));
  }

  // ---------------------------------------------------------------------
  // Splitting: str.split() on the cleaned line
  // ---------------------------------------------------------------------

  /** The leading run of non-space characters of s. */
  function Word(s: string): (w: string)
    ensures |w| <= |s| && w == s[..|w|]
    ensures ' ' !in w
    ensures |w| < |s| ==> s[|w|] == ' '
  {
    if s == [] || s[0] == ' ' then [] else [s[0]] + Word(s[1..])
  }

  /** The maximal runs of non-space characters of s, in order. After cleaning
      the space is the only white-space character left, so this is what
      `str.split()` returns for a cleaned line. */
  function Tokens(s: string): (ts: seq<string>)
    ensures forall i :: 0 <= i < |ts| ==> ts[i] != [] && ' ' !in ts[i]
    decreases |s|
  {
    if s == [] then []
    else if s[0] == ' ' then Tokens(s[1..])
    else
      var w := Word(s);
      [w] + Tokens(s[|w|..])
  }

  /** The tokens joined with single spaces. */
  function Join(ts: seq<string>): string
  {
    if ts == [] then [] else if |ts| == 1 then ts[0] else ts[0] + " " + Join(ts[1..])
  }

  lemma {:induction false} WordOfToken(t: string, rest: string)
    requires ' ' !in t
    requires rest == [] || rest[0] == ' '
    ensures Word(t + rest) == t
  {
    if t != [] {
      assert (t + rest)[1..] == t[1..] + rest;
      WordOfToken(t[1..], rest);
    }
  }

  predicate AllSpaces(s: string) { forall i :: 0 <= i < |s| ==> s[i] == ' ' }

  /** Spaces before a line do not change its tokens. */
  lemma {:induction false} TokensSkipLeadingSpaces(lead: string, s: string)
    requires AllSpaces(lead)
    ensures Tokens(lead + s) == Tokens(s)
  {
    if lead != [] {
      assert (lead + s)[0] == ' ';
      assert (lead + s)[1..] == lead[1..] + s;
      TokensSkipLeadingSpaces(lead[1..], s);
    } else {
      assert lead + s == s;
    }
  }

  /** Splitting undoes joining: non-empty, space-free tokens separated by
      spaces, with any spaces after them, come back out of the split
      unchanged and in order. */
  lemma {:induction false} TokensJoin(ts: seq<string>, trail: string)
    requires forall i :: 0 <= i < |ts| ==> ts[i] != [] && ' ' !in ts[i]
    requires AllSpaces(trail)
    ensures Tokens(Join(ts) + trail) == ts
  {
    if ts == [] {
      assert Join(ts) + trail == trail;
      TokensOfSpaces(trail);
    } else {
      var rest := if |ts| == 1 then trail else " " + Join(ts[1..]) + trail;
      assert Join(ts) + trail == ts[0] + rest;
      WordOfToken(ts[0], rest);
      assert (ts[0] + rest)[|ts[0]|..] == rest;
      if |ts| == 1 {
        TokensOfSpaces(trail);
      } else {
        assert rest[0] == ' ' && rest[1..] == Join(ts[1..]) + trail;
        TokensJoin(ts[1..], trail);
      }
    }
  }

  /** A non-empty, space-free string is a single token. */
  lemma TokensOfWord(t: string)
    requires t != [] && ' ' !in t
    ensures Tokens(t) == [t]
  {
    WordOfToken(t, []);
    assert t + [] == t;
  }

  /** A space separates: the tokens of a + " " + b are those of a followed by
      those of b, however many spaces a ends with or b starts with. With
      TokensOfWord and TokensOfSpaces this fixes the tokens of every line, so
      splitting drops the spaces and nothing else. */
  lemma {:induction false} TokensSplitAtSpace(a: string, b: string)
    ensures Tokens(a + " " + b) == Tokens(a) + Tokens(b)
    decreases |a|
  {
    var s := a + " " + b;
    if a == [] {
      assert s[0] == ' ' && s[1..] == b;
    } else if a[0] == ' ' {
      assert s[0] == ' ' && s[1..] == a[1..] + " " + b;
      TokensSplitAtSpace(a[1..], b);
    } else {
      var w := Word(a);
      var rest := a[|w|..] + " " + b;
      assert a == w + a[|w|..];
      assert s == w + rest;
      WordOfToken(w, rest);
      assert s[|w|..] == rest;
      TokensSplitAtSpace(a[|w|..], b);
    }
  }

  /** Two spaces between tokens separate them as one does. */
  lemma TokensOfTwoSpaces()
    ensures Tokens("12  34") == ["12", "34"]
  {
    TokensSplitAtSpace("12", " 34");
    assert "12" + " " + " 34" == "12  34";
    TokensOfWord("12");
    TokensSplitAtSpace("", "34");
    assert "" + " " + "34" == " 34";
    TokensOfWord("34");
    assert Tokens("") == [];
  }

  /** Cleaning "12 - 34" leaves two spaces between the numbers; the split
      still gives the two tokens. */
  lemma TokensOfDashedLine()
    ensures Tokens(Clean("12 - 34")) == ["12", "34"]
  {
    assert Clean("12 - 34") == "12  34";
    TokensOfTwoSpaces();
  }

  lemma {:induction false} WordOnlyKept(s: string)
    requires OnlyKept(s)
    ensures OnlyKept(Word(s))
  {
  }

  /** The tokens of a cleaned line are made of digits and carets only. */
  lemma {:induction false} TokensOfCleanLine(s: string)
    requires OnlyKept(s)
    ensures forall i, j :: 0 <= i < |Tokens(s)| && 0 <= j < |Tokens(s)[i]| ==>
              IsDigit(Tokens(s)[i][j]) || Tokens(s)[i][j] == '^'
    decreases |s|
  {
    if s != [] {
      if s[0] == ' ' {
        TokensOfCleanLine(s[1..]);
      } else {
        var w := Word(s);
        WordOnlyKept(s);
        TokensOfCleanLine(s[|w|..]);
      }
    }
  }

  /** A string of spaces has no tokens. */
  lemma {:induction false} TokensOfSpaces(s: string)
    requires AllSpaces(s)
    ensures Tokens(s) == []
  {
    if s != [] {
      TokensOfSpaces(s[1..]);
    }
  }

  // ---------------------------------------------------------------------
  // Reading integers: int(token) for every token
  // ---------------------------------------------------------------------

  /** `int(t)` for a token of a cleaned line, whose characters are digits and
      carets: it succeeds exactly on a non-empty run of digits. */
  function ParseToken(t: string): (r: Result<nat>)
    ensures r.Success? <==> t != [] && AllDigits(t)
    ensures r.Failure? ==> r.error == InvalidLiteral
  {
    if t != [] && AllDigits(t) then Success(DigitsValue(t)) else Failure(InvalidLiteral)
  }

  /** `list(map(int, tokens))`: every token read, or the first failure. */
  function TokenValues(ts: seq<string>): (r: Result<seq<nat>>)
    ensures r.Success? <==> forall i :: 0 <= i < |ts| ==> ParseToken(ts[i]).Success?
    ensures r.Success? ==> |r.value| == |ts|
    ensures r.Success? ==> forall i :: 0 <= i < |ts| ==> ParseToken(ts[i]) == Success(r.value[i])
    ensures r.Failure? ==> r.error == InvalidLiteral
  {
    if ts == [] then Success([])
    else match ParseToken(ts[0])
      case Failure(e) => Failure(e)
      case Success(v) =>
        match TokenValues(ts[1..])
        case Failure(e) => Failure(e)
        case Success(vs) => Success([v] + vs)
  }

  /** The integers of a raw line, in order, before scaling. */
  function LineValues(line: string): Result<seq<nat>>
  {
    TokenValues(Tokens(Clean(line)))
  }

  // ---------------------------------------------------------------------
  // Scaling and de-interleaving
  // ---------------------------------------------------------------------

  /** `int(v) / factor`, as an exact quotient. */
  function Scale(t: nat): (x: real)
    ensures x >= 0.0
    ensures x * FACTOR as real == t as real
  {
    t as real / FACTOR as real
  }

  function ScaleAll(ts: seq<nat>): (xs: seq<real>)
    ensures |xs| == |ts|
    ensures forall i :: 0 <= i < |ts| ==> xs[i] == Scale(ts[i])
  {
    seq(|ts|, i requires 0 <= i < |ts| => Scale(ts[i]))
  }

  /** `s[0::2]`: the elements at even positions, in order. */
  function Evens<T>(s: seq<T>): (r: seq<T>)
    ensures |r| == (|s| + 1) / 2
    ensures forall i :: 0 <= i < |r| ==> r[i] == s[2 * i]
    decreases |s|
  {
    if s == [] then [] else [s[0]] + Odds(s[1..])
  }

  /** `s[1::2]`: the elements at odd positions, in order. */
  function Odds<T>(s: seq<T>): (r: seq<T>)
    ensures |r| == |s| / 2
    ensures forall i :: 0 <= i < |r| ==> r[i] == s[2 * i + 1]
    decreases |s|
  {
    if s == [] then [] else Evens(s[1..])
  }

  /** Alternates the elements of a and b, starting with a. */
  function Interleave<T>(a: seq<T>, b: seq<T>): (r: seq<T>)
    requires |b| <= |a| <= |b| + 1
    ensures |r| == |a| + |b|
    decreases |a| + |b|
  {
    if a == [] then [] else [a[0]] + Interleave(b, a[1..])
  }

  /** Re-interleaving the two channels gives back the values they came from. */
  lemma {:induction false} InterleaveEvensOdds<T>(s: seq<T>)
    ensures Interleave(Evens(s), Odds(s)) == s
    decreases |s|
  {
    if s != [] {
      InterleaveEvensOdds(s[1..]);
    }
  }

  /** De-interleaving an interleaving gives back both of its parts. */
  lemma {:induction false} EvensOddsInterleave<T>(a: seq<T>, b: seq<T>)
    requires |b| <= |a| <= |b| + 1
    ensures Evens(Interleave(a, b)) == a && Odds(Interleave(a, b)) == b
    decreases |a| + |b|
  {
    if a != [] {
      EvensOddsInterleave(b, a[1..]);
      assert [a[0]] + a[1..] == a;
    }
  }

  // ---------------------------------------------------------------------
  // read_stream's decoding
  // ---------------------------------------------------------------------

  /** The two channels of one stream line, in device units. */
  datatype Frame = Frame(ch1: seq<real>, ch2: seq<real>)

  /** The decoding `read_stream` applies to a line it has read. */
  function Decode(line: string): (r: Result<Frame>)
    ensures r.Success? ==> |r.value.ch1| == |r.value.ch2| || |r.value.ch1| == |r.value.ch2| + 1
    ensures r.Success? ==> forall i :: 0 <= i < |r.value.ch1| ==> r.value.ch1[i] >= 0.0
    ensures r.Success? ==> forall i :: 0 <= i < |r.value.ch2| ==> r.value.ch2[i] >= 0.0
    ensures r.Failure? ==> r.error == InvalidLiteral
  {
    match LineValues(line)
    case Failure(e) => Failure(e)
    case Success(vs) =>
      var xs := ScaleAll(vs);
      Success(Frame(Evens(xs), Odds(xs)))
  }

  /** The whole read fails exactly when some token of the cleaned line holds a
      caret; otherwise every token is a number. */
  lemma DecodeFailsIffCaret(line: string)
    ensures Decode(line).Failure? <==> exists t :: t in Tokens(Clean(line)) && '^' in t
  {
    var ts := Tokens(Clean(line));
    TokensOfCleanLine(Clean(line));
    if Decode(line).Failure? {
      var i :| 0 <= i < |ts| && ParseToken(ts[i]).Failure?;
      var j :| 0 <= j < |ts[i]| && !IsDigit(ts[i][j]);
      assert ts[i][j] == '^';
      assert ts[i] in ts && '^' in ts[i];
    } else {
      assert LineValues(line).Success?;
      forall i | 0 <= i < |ts| ensures '^' !in ts[i] {
        assert AllDigits(ts[i]);
      }
    }
  }

  /** Channel 1 takes the values at even positions and channel 2 those at odd
      positions, each scaled by the factor and in token order; interleaving
      the channels again gives every value of the line. */
  lemma DecodeDeinterleaves(line: string)
    requires LineValues(line).Success?
    ensures Decode(line).Success?
    ensures var vs := LineValues(line).value; var f := Decode(line).value;
      && |f.ch1| == (|vs| + 1) / 2 && |f.ch2| == |vs| / 2
      && (forall i :: 0 <= i < |f.ch1| ==> f.ch1[i] == Scale(vs[2 * i]))
      && (forall i :: 0 <= i < |f.ch2| ==> f.ch2[i] == Scale(vs[2 * i + 1]))
      && Interleave(f.ch1, f.ch2) == ScaleAll(vs)
  {
    InterleaveEvensOdds(ScaleAll(LineValues(line).value));
  }

  /** A line with neither digits nor carets decodes, without error, to two
      empty channels. */
  lemma DecodeNoDigits(line: string)
    requires forall i :: 0 <= i < |line| ==> !IsDigit(line[i]) && line[i] != '^'
    ensures Decode(line) == Success(Frame([], []))
  {
    CleanCounts(line);
    var s := Clean(line);
    forall i | 0 <= i < |s| ensures s[i] == ' ' {
      assert s[i] in multiset(s);
      assert s[i] in multiset(line);
    }
    TokensOfSpaces(s);
  }

  // ---------------------------------------------------------------------
  // Examples
  // ---------------------------------------------------------------------

  /** A tab is deleted rather than treated as a separator, so its
      neighbours merge into one token. */
  lemma TabMergesTokens()
    ensures Tokens(Clean("12\t34")) == ["1234"]
  {
    assert Clean("12\t34") == "1234";
    assert Word("1234") == "1234";
  }

  lemma JoinFourValues(ts: seq<string>)
    requires ts == ["12", "34", "56", "78"]
    ensures Join(ts) == "12 34 56 78"
  {
    assert Join(ts[3..]) == "78";
    assert Join(ts[2..]) == "56" + " " + Join(ts[3..]);
    assert Join(ts[1..]) == "34" + " " + Join(ts[2..]);
    assert Join(ts) == "12" + " " + Join(ts[1..]);
  }

  lemma TokensOfFourValues(s: string, ts: seq<string>)
    requires s == "  12 34 56 78  " && ts == ["12", "34", "56", "78"]
    ensures Tokens(s) == ts
  {
    JoinFourValues(ts);
    assert s == "  " + (Join(ts) + "  ");
    TokensSkipLeadingSpaces("  ", Join(ts) + "  ");
    TokensJoin(ts, "  ");
  }

  lemma LineValuesOfFour(s: string)
    requires s == "  12 34 56 78  "
    ensures LineValues(s) == Success([12, 34, 56, 78])
  {
    assert OnlyKept(s) by {
      forall i | 0 <= i < |s| ensures Kept(s[i]) {
        assert s[i] in " 12345678";
      }
    }
    CleanFixedPoints(s);
    TokensOfFourValues(s, ["12", "34", "56", "78"]);
    ValuesOfFourTokens();
  }

  lemma TokensOfThreeValues(s: string)
    requires s == "1 2 3"
    ensures Tokens(s) == ["1", "2", "3"]
  {
    var ts := ["1", "2", "3"];
    assert Join(ts) == "1 2 3" by {
      assert ts[1..] == ["2", "3"] && ts[1..][1..] == ["3"];
    }
    assert s == Join(ts) + "";
    TokensJoin(ts, "");
  }

  lemma ValuesOfFourTokens()
    ensures TokenValues(["12", "34", "56", "78"]) == Success([12, 34, 56, 78])
  {
    var ts := ["12", "34", "56", "78"];
    assert ParseToken(ts[0]) == Success(12) by {
      assert "12"[..1] == "1" && "12"[1] == '2' && DigitsValue("1") == 1;
    }
    assert ParseToken(ts[1]) == Success(34) by {
      assert "34"[..1] == "3" && "34"[1] == '4' && DigitsValue("3") == 3;
    }
    assert ParseToken(ts[2]) == Success(56) by {
      assert "56"[..1] == "5" && "56"[1] == '6' && DigitsValue("5") == 5;
    }
    assert ParseToken(ts[3]) == Success(78) by {
      assert "78"[..1] == "7" && "78"[1] == '8' && DigitsValue("7") == 7;
    }
    assert TokenValues(ts).value == [12, 34, 56, 78];
  }

  /** Four values split two to each channel, scaled by the factor. */
  lemma DecodeFourValues(s: string)
    requires s == "  12 34 56 78  "
    ensures Decode(s) == Success(Frame([0.012, 0.056], [0.034, 0.078]))
  {
    LineValuesOfFour(s);
    var xs := ScaleAll([12, 34, 56, 78]);
    assert Evens(xs) == [0.012, 0.056];
    assert Odds(xs) == [0.034, 0.078];
  }

  /** An odd number of values is not rejected: channel 1 gets the extra one. */
  lemma DecodeOddCount(s: string)
    requires s == "1 2 3"
    ensures Decode(s) == Success(Frame([0.001, 0.003], [0.002]))
  {
    assert LineValues(s) == Success([1, 2, 3]) by {
      assert OnlyKept(s) by {
        forall i | 0 <= i < |s| ensures Kept(s[i]) {
          assert s[i] in " 123";
        }
      }
      CleanFixedPoints(s);
      TokensOfThreeValues(s);
      var ts := ["1", "2", "3"];
      assert ParseToken(ts[0]) == Success(1);
      assert ParseToken(ts[1]) == Success(2);
      assert ParseToken(ts[2]) == Success(3);
      assert TokenValues(ts).value == [1, 2, 3];
    }
    var xs := ScaleAll([1, 2, 3]);
    assert Evens(xs) == [0.001, 0.003];
    assert Odds(xs) == [0.002];
  }

  /** A caret survives cleaning and makes the whole read fail. */
  lemma DecodeCaretFails()
    ensures Decode("7 1^2") == Failure(InvalidLiteral)
  {
    var s := "7 1^2";
    assert Clean(s) == s;
    assert Word("1^2") == "1^2";
    assert Tokens(s)[1] == "1^2";
    DecodeFailsIffCaret(s);
  }
}
