/**
 * The keyword classifier `categorize_event`: an event name is put in the first
 * category, in priority order Politics, Sports, Crypto, Economic, Tech, one of
 * whose keywords occurs anywhere in the lower-cased name; Other when none does.
 */
module Categorize {
  import opened Text

  datatype MarketType = Politics | Sports | Crypto | Economic | Tech | Other

  const PoliticsWords: seq<string> := ["election", "president", "senate", "house", "republican", "democratic", "midterm"]
  const SportsWords: seq<string> := ["nba", "nfl", "super bowl", "championship", "world cup", "warriors", "lakers", "chiefs"]
  const CryptoWords: seq<string> := ["bitcoin", "ethereum", "crypto", "blockchain"]
  const EconomicWords: seq<string> := ["fed", "rate", "recession", "inflation", "unemployment", "s&p", "gold", "dollar"]
  const TechWords: seq<string> := ["ai", "gpt", "openai", "tesla", "apple", "google", "amazon", "spacex", "quantum"]

  /** Python's `any(word in s for word in words)`, tried word by word. */
  predicate AnyIn(s: string, words: seq<string>) {
    words != [] && (Contains(s, words[0]) || AnyIn(s, words[1..]))
  }

  /** `AnyIn` holds exactly when some word of the list occurs. */
  lemma {:induction false} AnyInSome(s: string, words: seq<string>)
    ensures AnyIn(s, words) <==> exists i | 0 <= i < |words| :: Contains(s, words[i])
    decreases |words|
  {
    if words != [] {
      AnyInSome(s, words[1..]);
      if exists i | 0 <= i < |words| :: Contains(s, words[i]) {
        var i :| 0 <= i < |words| && Contains(s, words[i]);
        if i > 0 { assert words[1..][i - 1] == words[i]; }
      }
      if exists i | 0 <= i < |words[1..]| :: Contains(s, words[1..][i]) {
        var i :| 0 <= i < |words[1..]| && Contains(s, words[1..][i]);
        assert words[i + 1] == words[1..][i];
      }
    }
  }

  /** The categories that have keywords, in the order they are tried. */
  const Priority: seq<MarketType> := [Politics, Sports, Crypto, Economic, Tech]

  /** The first category of `order` with a keyword in `l`; Other when there is none. */
  function FirstMatching(l: string, order: seq<MarketType>): MarketType {
    if order == [] then Other
    else if AnyIn(l, Keywords(order[0])) then order[0]
    else FirstMatching(l, order[1..])
  }

  /** `categorize_event`: the if-chain over the lower-cased name, in priority order. */
  function CategorizeEvent(eventName: string): MarketType {
    FirstMatching(Lower(eventName), Priority)
  }

  /** The keyword group of a category; Other has none. */
  function Keywords(t: MarketType): seq<string> {
    match t
    case Politics => PoliticsWords
    case Sports => SportsWords
    case Crypto => CryptoWords
    case Economic => EconomicWords
    case Tech => TechWords
    case Other => []
  }

  /** Position of a category in the priority order (0 is tried first). */
  function Rank(t: MarketType): nat {
    match t
    case Politics => 0
    case Sports => 1
    case Crypto => 2
    case Economic => 3
    case Tech => 4
    case Other => 5
  }

  /** `CategorizeEvent` unrolled into the if-chain of `categorize_event`. */
  lemma CategorizeChain(eventName: string)
    ensures var l := Lower(eventName);
      CategorizeEvent(eventName) ==
        if AnyIn(l, PoliticsWords) then Politics
        else if AnyIn(l, SportsWords) then Sports
        else if AnyIn(l, CryptoWords) then Crypto
        else if AnyIn(l, EconomicWords) then Economic
        else if AnyIn(l, TechWords) then Tech
        else Other
  {
    var l := Lower(eventName);
    var o4: seq<MarketType> := [Tech];
    var o3 := [Economic] + o4;
    var o2 := [Crypto] + o3;
    var o1 := [Sports] + o2;
    assert Priority == [Politics] + o1;
    assert FirstMatching(l, o4) == if AnyIn(l, TechWords) then Tech else Other by {
      assert o4[1..] == [];
    }
    assert FirstMatching(l, o3) == if AnyIn(l, EconomicWords) then Economic else FirstMatching(l, o4) by {
      assert o3[1..] == o4;
    }
    assert FirstMatching(l, o2) == if AnyIn(l, CryptoWords) then Crypto else FirstMatching(l, o3) by {
      assert o2[1..] == o3;
    }
    assert FirstMatching(l, o1) == if AnyIn(l, SportsWords) then Sports else FirstMatching(l, o2) by {
      assert o1[1..] == o2;
    }
    assert FirstMatching(l, Priority) == if AnyIn(l, PoliticsWords) then Politics else FirstMatching(l, o1) by {
      assert Priority[1..] == o1;
    }
  }

  /**
   * The classification stated outright: the result is the category of
   * highest priority whose group has a keyword in the lower-cased name, and
   * Other exactly when no group has one.
   */
  lemma CategorizeByPriority(eventName: string, t: MarketType)
    ensures CategorizeEvent(eventName) == t <==>
      (t == Other || AnyIn(Lower(eventName), Keywords(t))) &&
      (forall u: MarketType :: Rank(u) < Rank(t) ==> !AnyIn(Lower(eventName), Keywords(u)))
  {
    var l := Lower(eventName);
    var c := CategorizeEvent(eventName);
    CategorizeChain(eventName);
    forall u: MarketType | Rank(u) < Rank(c) ensures !AnyIn(l, Keywords(u)) {
      match u
      case Politics =>
      case Sports =>
      case Crypto =>
      case Economic =>
      case Tech =>
      case Other =>
    }
    assert c == Other || AnyIn(l, Keywords(c));
    if c != t {
      if Rank(c) < Rank(t) {
        assert c != Other;
      } else {
        assert Rank(t) < Rank(c) || t == c by {
          match t
          case Politics => case Sports => case Crypto => case Economic => case Tech => case Other =>
        }
        assert t != Other;
      }
    }
  }

  /** Upper-case letters in an event name never change its category. */
  lemma CategorizeIgnoresCase(eventName: string)
    ensures CategorizeEvent(Lower(eventName)) == CategorizeEvent(eventName)
  {
    LowerIdempotent(eventName);
  }

  /**
   * Matching is on substrings, not words: text added around a name can only
   * move it to a category of higher priority, never to a lower one.
   */
  lemma CategorizeExtend(pre: string, eventName: string, post: string)
    ensures Rank(CategorizeEvent(pre + eventName + post)) <= Rank(CategorizeEvent(eventName))
  {
    var l := Lower(eventName);
    var big := Lower(pre + eventName + post);
    LowerAppend(pre + eventName, post);
    LowerAppend(pre, eventName);
    assert big == Lower(pre) + l + Lower(post);
    CategorizeChain(eventName);
    CategorizeChain(pre + eventName + post);
    forall words: seq<string> | AnyIn(l, words) ensures AnyIn(big, words) {
      AnyInSome(l, words);
      AnyInSome(big, words);
      var i :| 0 <= i < |words| && Contains(l, words[i]);
      ContainsExtend(l, words[i], Lower(pre), Lower(post));
    }
  }

  predicate AllLower(words: seq<string>) {
    forall j :: 0 <= j < |words| ==> Lower(words[j]) == words[j]
  }

  lemma PoliticsLower() ensures AllLower(PoliticsWords) {}
  lemma SportsLower() ensures AllLower(SportsWords) {}
  lemma CryptoLower() ensures AllLower(CryptoWords) {}
  lemma EconomicLower() ensures AllLower(EconomicWords) {}
  lemma TechLower() ensures AllLower(TechWords) {}

  lemma KeywordsAreLower(t: MarketType)
    ensures AllLower(Keywords(t))
  {
    match t
    case Politics => PoliticsLower();
    case Sports => SportsLower();
    case Crypto => CryptoLower();
    case Economic => EconomicLower();
    case Tech => TechLower();
    case Other =>
  }

  /**
   * Any name containing a keyword, even inside a longer word ("corporate"
   * holds "rate"), gets that keyword's category or one of higher priority.
   */
  lemma KeywordAnywhere(pre: string, post: string, t: MarketType, j: nat)
    requires j < |Keywords(t)|
    ensures Rank(CategorizeEvent(pre + Keywords(t)[j] + post)) <= Rank(t)
  {
    var w := Keywords(t)[j];
    KeywordsAreLower(t);
    assert Contains(w, w) by { assert MatchesAt(w, w, 0); }
    AnyInSome(Lower(w), Keywords(t));
    CategorizeExtend(pre, w, post);
    CategorizeChain(w);
  }

  /** A name with "election" in it is Politics whatever else it mentions. */
  lemma ElectionWins(eventName: string)
    requires Contains(Lower(eventName), "election")
    ensures CategorizeEvent(eventName) == Politics
  {
    CategorizeChain(eventName);
    assert PoliticsWords[0] == "election";
  }

  // Two titles from the sample data classify as the keyword lists intend.
  // Each absent keyword is ruled out by a character or a pair of adjacent
  // characters the lower-cased title does not contain, shown chunk by chunk.

  lemma Lacks3(a: string, b: string, d: string, c: char)
    requires Lacks(a, c) && Lacks(b, c) && Lacks(d, c)
    ensures Lacks(a + b + d, c)
  {
    LacksAppend(a, b, c);
    LacksAppend(a + b, d, c);
  }

  lemma LacksPair3(a: string, b: string, d: string, x: char, y: char)
    requires LacksPair(a, x, y) && LacksPair(b, x, y) && LacksPair(d, x, y)
    requires a != [] && b != [] && d != [] && b[0] != y && d[0] != y
    ensures LacksPair(a + b + d, x, y)
  {
    LacksPairAppend(a, b, x, y);
    LacksPairAppend(a + b, d, x, y);
  }

  lemma NotPoliticsFed(l: string)
    requires Lacks(l, 'p') && Lacks(l, 'm')
    requires LacksPair(l, 'l', 'e') && LacksPair(l, 's', 'e') && LacksPair(l, 'h', 'o')
    ensures !AnyIn(l, PoliticsWords)
  {
    AnyInSome(l, PoliticsWords);
    AbsentByPair(l, "election", 1);
    AbsentByChar(l, "president", 0);
    AbsentByPair(l, "senate", 0);
    AbsentByPair(l, "house", 0);
    AbsentByChar(l, "republican", 2);
    AbsentByChar(l, "democratic", 2);
    AbsentByChar(l, "midterm", 0);
  }

  lemma NotSportsFed(l: string)
    requires Lacks(l, 'p') && Lacks(l, 'm') && Lacks(l, 'k')
    requires LacksPair(l, 'n', 'b') && LacksPair(l, 'n', 'f') && LacksPair(l, 'w', 'a') && LacksPair(l, 'c', 'h')
    ensures !AnyIn(l, SportsWords)
  {
    AnyInSome(l, SportsWords);
    AbsentByPair(l, "nba", 0);
    AbsentByPair(l, "nfl", 0);
    AbsentByChar(l, "super bowl", 2);
    AbsentByChar(l, "championship", 3);
    AbsentByChar(l, "world cup", 8);
    AbsentByPair(l, "warriors", 0);
    AbsentByChar(l, "lakers", 2);
    AbsentByPair(l, "chiefs", 0);
  }

  lemma NotCryptoFed(l: string)
    requires Lacks(l, 'p') && Lacks(l, 'm') && Lacks(l, 'k') && LacksPair(l, 'b', 'i')
    ensures !AnyIn(l, CryptoWords)
  {
    AnyInSome(l, CryptoWords);
    AbsentByPair(l, "bitcoin", 0);
    AbsentByChar(l, "ethereum", 7);
    AbsentByChar(l, "crypto", 3);
    AbsentByChar(l, "blockchain", 4);
  }

  const FedA := "will the fed cut"
  const FedB := " rates below 3%"
  const FedC := " by end of 2026?"

  lemma FedLowerA() ensures Lower("Will the Fed cut") == FedA {}
  lemma FedLowerB() ensures Lower(FedB) == FedB {}
  lemma FedLowerC() ensures Lower(FedC) == FedC {}

  lemma FedLower()
    ensures Lower("Will the Fed cut rates below 3% by end of 2026?") == FedA + FedB + FedC
  {
    FedLowerA(); FedLowerB(); FedLowerC();
    LowerAppend("Will the Fed cut", FedB);
    LowerAppend("Will the Fed cut" + FedB, FedC);
    assert "Will the Fed cut" + FedB + FedC == "Will the Fed cut rates below 3% by end of 2026?";
  }

  lemma FedChars()
    ensures Lacks(FedA + FedB + FedC, 'p') && Lacks(FedA + FedB + FedC, 'm') && Lacks(FedA + FedB + FedC, 'k')
  {
    FedLacksChar('p'); FedLacksChar('m'); FedLacksChar('k');
  }

  lemma FedLacksChar(c: char)
    requires c in "pmk"
    ensures Lacks(FedA + FedB + FedC, c)
  {
    assert Lacks(FedA, c) && Lacks(FedB, c) && Lacks(FedC, c);
    Lacks3(FedA, FedB, FedC, c);
  }

  lemma FedLe() ensures LacksPair(FedA + FedB + FedC, 'l', 'e') { LacksPair3(FedA, FedB, FedC, 'l', 'e'); }
  lemma FedSe() ensures LacksPair(FedA + FedB + FedC, 's', 'e') { LacksPair3(FedA, FedB, FedC, 's', 'e'); }
  lemma FedHo() ensures LacksPair(FedA + FedB + FedC, 'h', 'o') { LacksPair3(FedA, FedB, FedC, 'h', 'o'); }
  lemma FedNb() ensures LacksPair(FedA + FedB + FedC, 'n', 'b') { LacksPair3(FedA, FedB, FedC, 'n', 'b'); }
  lemma FedNf() ensures LacksPair(FedA + FedB + FedC, 'n', 'f') { LacksPair3(FedA, FedB, FedC, 'n', 'f'); }
  lemma FedWa() ensures LacksPair(FedA + FedB + FedC, 'w', 'a') { LacksPair3(FedA, FedB, FedC, 'w', 'a'); }
  lemma FedCh() ensures LacksPair(FedA + FedB + FedC, 'c', 'h') { LacksPair3(FedA, FedB, FedC, 'c', 'h'); }
  lemma FedBi() ensures LacksPair(FedA + FedB + FedC, 'b', 'i') { LacksPair3(FedA, FedB, FedC, 'b', 'i'); }

  lemma FedHasFed()
    ensures Contains(FedA + FedB + FedC, "fed")
  {
    ContainsAt(FedA, "fed", 9);
    ContainsExtend(FedA, "fed", "", FedB + FedC);
    assert "" + FedA + (FedB + FedC) == FedA + FedB + FedC;
  }

  /** "fed" puts a rate-cut question in Economic. */
  lemma FedExample()
    ensures CategorizeEvent("Will the Fed cut rates below 3% by end of 2026?") == Economic
  {
    var l := FedA + FedB + FedC;
    CategorizeChain("Will the Fed cut rates below 3% by end of 2026?");
    FedLower();
    FedChars();
    FedLe(); FedSe(); FedHo(); FedNb(); FedNf(); FedWa(); FedCh(); FedBi();
    NotPoliticsFed(l);
    NotSportsFed(l);
    NotCryptoFed(l);
    FedHasFed();
    assert EconomicWords[0] == "fed";
  }

  lemma NotPoliticsBitcoin(l: string)
    requires Lacks(l, 'p') && Lacks(l, 'm') && Lacks(l, 's') && Lacks(l, 'u') && LacksPair(l, 'e', 'l')
    ensures !AnyIn(l, PoliticsWords)
  {
    AnyInSome(l, PoliticsWords);
    AbsentByPair(l, "election", 0);
    AbsentByChar(l, "president", 0);
    AbsentByChar(l, "senate", 0);
    AbsentByChar(l, "house", 2);
    AbsentByChar(l, "republican", 2);
    AbsentByChar(l, "democratic", 2);
    AbsentByChar(l, "midterm", 0);
  }

  lemma NotSportsBitcoin(l: string)
    requires Lacks(l, 'm') && Lacks(l, 's') && Lacks(l, 'u') && LacksPair(l, 'n', 'b') && LacksPair(l, 'n', 'f')
    ensures !AnyIn(l, SportsWords)
  {
    AnyInSome(l, SportsWords);
    AbsentByPair(l, "nba", 0);
    AbsentByPair(l, "nfl", 0);
    AbsentByChar(l, "super bowl", 0);
    AbsentByChar(l, "championship", 3);
    AbsentByChar(l, "world cup", 7);
    AbsentByChar(l, "warriors", 7);
    AbsentByChar(l, "lakers", 5);
    AbsentByChar(l, "chiefs", 5);
  }

  const BitcoinA := "will bitcoin r"
  const BitcoinB := "each $150k by "
  const BitcoinC := "end of 2026?"

  lemma BitcoinLowerA() ensures Lower("Will Bitcoin r") == BitcoinA {}
  lemma BitcoinLowerB() ensures Lower(BitcoinB) == BitcoinB {}
  lemma BitcoinLowerC() ensures Lower(BitcoinC) == BitcoinC {}

  lemma BitcoinLower()
    ensures Lower("Will Bitcoin reach $150k by end of 2026?") == BitcoinA + BitcoinB + BitcoinC
  {
    BitcoinLowerA(); BitcoinLowerB(); BitcoinLowerC();
    LowerAppend("Will Bitcoin r", BitcoinB);
    LowerAppend("Will Bitcoin r" + BitcoinB, BitcoinC);
    assert "Will Bitcoin r" + BitcoinB + BitcoinC == "Will Bitcoin reach $150k by end of 2026?";
  }

  lemma BitcoinLacksChar(c: char)
    requires c in "pmsu"
    ensures Lacks(BitcoinA + BitcoinB + BitcoinC, c)
  {
    assert Lacks(BitcoinA, c) && Lacks(BitcoinB, c) && Lacks(BitcoinC, c);
    Lacks3(BitcoinA, BitcoinB, BitcoinC, c);
  }

  lemma BitcoinEl() ensures LacksPair(BitcoinA + BitcoinB + BitcoinC, 'e', 'l') { LacksPair3(BitcoinA, BitcoinB, BitcoinC, 'e', 'l'); }
  lemma BitcoinNb() ensures LacksPair(BitcoinA + BitcoinB + BitcoinC, 'n', 'b') { LacksPair3(BitcoinA, BitcoinB, BitcoinC, 'n', 'b'); }
  lemma BitcoinNf() ensures LacksPair(BitcoinA + BitcoinB + BitcoinC, 'n', 'f') { LacksPair3(BitcoinA, BitcoinB, BitcoinC, 'n', 'f'); }

  lemma BitcoinHasBitcoin()
    ensures Contains(BitcoinA + BitcoinB + BitcoinC, "bitcoin")
  {
    ContainsAt(BitcoinA, "bitcoin", 5);
    ContainsExtend(BitcoinA, "bitcoin", "", BitcoinB + BitcoinC);
    assert "" + BitcoinA + (BitcoinB + BitcoinC) == BitcoinA + BitcoinB + BitcoinC;
  }

  /** "bitcoin" puts a price question in Crypto. */
  lemma BitcoinExample()
    ensures CategorizeEvent("Will Bitcoin reach $150k by end of 2026?") == Crypto
  {
    var l := BitcoinA + BitcoinB + BitcoinC;
    CategorizeChain("Will Bitcoin reach $150k by end of 2026?");
    BitcoinLower();
    BitcoinLacksChar('p'); BitcoinLacksChar('m'); BitcoinLacksChar('s'); BitcoinLacksChar('u');
    BitcoinEl(); BitcoinNb(); BitcoinNf();
    NotPoliticsBitcoin(l);
    NotSportsBitcoin(l);
    BitcoinHasBitcoin();
    assert CryptoWords[0] == "bitcoin";
  }
}
