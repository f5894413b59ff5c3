/** Recognising a hosting network by the words of its name: a padded substring search stands in for a
    search for whole words. Lower-casing and the letter-or-digit test are parameters. */
module Classify {

  predicate At<T(==)>(s: seq<T>, p: int, t: seq<T>) {
    0 <= p <= |s| - |t| && s[p..p + |t|] == t
  }

  /** strings.Contains. */
  ghost predicate Contains(s: string, t: string) {
    exists p :: At(s, p, t)
  }

  /** strings.FieldsFunc: the maximal runs of word characters. */
  function Words(s: string, isWord: char -> bool): seq<string> {
    if s == [] then []
    else
      var n, before := |s| - 1, Words(s[..|s| - 1], isWord);
      if !isWord(s[n]) then before
      else if n > 0 && isWord(s[n - 1]) && before != [] then before[..|before| - 1] + [before[|before| - 1] + [s[n]]]
      else before + [[s[n]]]
  }

  /** strings.Join with a space. */
  function Join(words: seq<string>): string {
    if words == [] then "" else if |words| == 1 then words[0] else words[0] + " " + Join(words[1..])
  }

  function NormalizeWords(value: string, lower: string -> string, isWord: char -> bool): string {
    Join(Words(lower(value), isWord))
  }

  const DATACENTER_TOKENS: seq<string> := [
    "amazon", "aws", "google cloud", "microsoft", "azure", "digitalocean", "linode", "vultr", "ovh", "hetzner",
    "hostrush", "database mart", "hosting", "cloud", "colo", "datacenter", "data center", "server"]

  ghost predicate HasDatacenterASN(asn: string, lower: string -> string, isWord: char -> bool) {
    var normalized := " " + NormalizeWords(asn, lower, isWord) + " ";
    exists k | 0 <= k < |DATACENTER_TOKENS| :: Contains(normalized, " " + DATACENTER_TOKENS[k] + " ")
  }

  // ----- Words and the padded string -----

  predicate Spaceless(words: seq<string>) {
    forall i | 0 <= i < |words| :: words[i] != "" && ' ' !in words[i]
  }

  /** Every word with a space in front. */
  function Spaced(words: seq<string>): string {
    if words == [] then "" else " " + words[0] + Spaced(words[1..])
  }

  lemma {:induction false} PaddedIsSpaced(words: seq<string>)
    requires words != []
    ensures " " + Join(words) + " " == Spaced(words) + " "
  {
    if |words| == 1 {
      assert Spaced(words[1..]) == "";
    } else {
      PaddedIsSpaced(words[1..]);
      calc {
        " " + Join(words) + " ";
        " " + (words[0] + " " + Join(words[1..])) + " ";
        " " + words[0] + (" " + Join(words[1..]) + " ");
        " " + words[0] + (Spaced(words[1..]) + " ");
        Spaced(words) + " ";
      }
    }
  }

  lemma {:induction false} SpacedConcat(a: seq<string>, b: seq<string>)
    ensures Spaced(a + b) == Spaced(a) + Spaced(b)
  {
    if a == [] {
      assert a + b == b;
    } else {
      SpacedConcat(a[1..], b);
      assert (a + b)[1..] == a[1..] + b;
    }
  }

  lemma {:induction false} WordsAreProper(s: string, isWord: char -> bool)
    requires !isWord(' ')
    ensures Spaceless(Words(s, isWord))
    ensures forall i, c | 0 <= i < |Words(s, isWord)| && c in Words(s, isWord)[i] :: isWord(c)
  {
    if s != [] {
      WordsAreProper(s[..|s| - 1], isWord);
    }
  }

  predicate AllWord(w: string, isWord: char -> bool) {
    forall c | c in w :: isWord(c)
  }

  lemma WordsNext(s: string, c: char, isWord: char -> bool)
    ensures var before := Words(s, isWord);
            Words(s + [c], isWord) ==
              if !isWord(c) then before
              else if s != "" && isWord(s[|s| - 1]) && before != [] then before[..|before| - 1] + [before[|before| - 1] + [c]]
              else before + [[c]]
  {
    assert (s + [c])[..|s|] == s;
  }

  /** A word behind the start of the text or behind a separator becomes a word of its own. */
  lemma {:induction false} WordsByWord(s: string, w: string, isWord: char -> bool)
    requires w != "" && AllWord(w, isWord) && (s == "" || !isWord(s[|s| - 1]))
    ensures Words(s + w, isWord) == Words(s, isWord) + [w]
  {
    var init, last := w[..|w| - 1], w[|w| - 1];
    assert w == init + [last] && s + w == (s + init) + [last];
    if init == "" {
      assert s + init == s;
      WordsNext(s, last, isWord);
    } else {
      WordsByWord(s, init, isWord);
      LongerWord(s, init, last, isWord);
    }
  }

  lemma LongerWord(s: string, w: string, c: char, isWord: char -> bool)
    requires w != "" && AllWord(w, isWord) && isWord(c) && Words(s + w, isWord) == Words(s, isWord) + [w]
    ensures Words((s + w) + [c], isWord) == Words(s, isWord) + [w + [c]]
  {
    WordsNext(s + w, c, isWord);
    var before := Words(s, isWord);
    assert (before + [w])[..|before|] == before;
  }

  lemma {:induction false} JoinLast(words: seq<string>)
    requires |words| > 1
    ensures Join(words) == Join(words[..|words| - 1]) + " " + words[|words| - 1]
  {
    if |words| == 2 {
      assert words[1..] == [words[1]] && words[..1] == [words[0]];
    } else {
      JoinLast(words[1..]);
      assert words[1..][..|words| - 2] == words[..|words| - 1][1..];
    }
  }

  lemma NextWord(text: string, w: string, isWord: char -> bool)
    requires !isWord(' ') && w != "" && AllWord(w, isWord)
    ensures Words(text + " " + w, isWord) == Words(text, isWord) + [w]
  {
    WordsNext(text, ' ', isWord);
    WordsByWord(text + " ", w, isWord);
  }

  /** A character that belongs to no word separates: the words are those in front of it and those behind. */
  lemma {:induction false} WordsSplit(a: string, c: char, b: string, isWord: char -> bool)
    requires !isWord(c)
    ensures Words(a + [c] + b, isWord) == Words(a, isWord) + Words(b, isWord)
  {
    if b == "" {
      assert a + [c] + b == a + [c];
      WordsNext(a, c, isWord);
    } else {
      var init, last := b[..|b| - 1], b[|b| - 1];
      assert b == init + [last] && a + [c] + b == (a + [c] + init) + [last];
      WordsSplit(a, c, init, isWord);
      WordsNext(a + [c] + init, last, isWord);
      WordsNext(init, last, isWord);
      EndsInWord(init, isWord);
      SplitNext(a, c, init, last, isWord);
    }
  }

  lemma SplitNext(a: string, c: char, init: string, last: char, isWord: char -> bool)
    requires !isWord(c) && Words(a + [c] + init, isWord) == Words(a, isWord) + Words(init, isWord)
    requires init != "" && isWord(init[|init| - 1]) ==> Words(init, isWord) != []
    ensures Words((a + [c] + init) + [last], isWord) == Words(a, isWord) + Words(init + [last], isWord)
  {
    var s, x, y := a + [c] + init, Words(a, isWord), Words(init, isWord);
    WordsNext(s, last, isWord);
    WordsNext(init, last, isWord);
    assert s[|s| - 1] == if init == "" then c else init[|init| - 1];
    if y != [] {
      assert (x + y)[..|x + y| - 1] == x + y[..|y| - 1];
    }
  }

  lemma EndsInWord(s: string, isWord: char -> bool)
    ensures s != "" && isWord(s[|s| - 1]) ==> Words(s, isWord) != []
  {
  }

  lemma JoinOneMore(init: seq<string>, last: string, isWord: char -> bool)
    requires !isWord(' ') && last != "" && AllWord(last, isWord) && init != [] && Words(Join(init), isWord) == init
    ensures Words(Join(init + [last]), isWord) == init + [last]
  {
    JoinLast(init + [last]);
    assert (init + [last])[..|init|] == init;
    NextWord(Join(init), last, isWord);
  }

  lemma JoinOne(w: string, isWord: char -> bool)
    requires w != "" && AllWord(w, isWord)
    ensures Words(Join([w]), isWord) == [w]
  {
    WordsByWord("", w, isWord);
    assert "" + w == w;
  }

  /** Normalizing is stable: splitting what was joined gives back the same words. */
  lemma {:induction false} WordsOfJoin(words: seq<string>, isWord: char -> bool)
    requires !isWord(' ') && forall i | 0 <= i < |words| :: words[i] != "" && AllWord(words[i], isWord)
    ensures Words(Join(words), isWord) == words
  {
    if words != [] {
      var init, last := words[..|words| - 1], words[|words| - 1];
      assert words == init + [last];
      if init == [] {
        JoinOne(last, isWord);
      } else {
        WordsOfJoin(init, isWord);
        JoinOneMore(init, last, isWord);
      }
    }
  }

  // ----- A phrase is found exactly when its words occur in a row -----

  /** The words of the phrase occur in a row. */
  ghost predicate OccursIn(phrase: seq<string>, words: seq<string>) {
    exists i :: At(words, i, phrase)
  }

  lemma MiddleAt(a: string, b: string, c: string)
    requires c != [] && c[0] == ' '
    ensures At(a + (b + c), |a|, b + " ")
  {
  }

  lemma OccurrenceIsFound(phrase: seq<string>, words: seq<string>, i: nat)
    requires At(words, i, phrase)
    ensures Contains(Spaced(words) + " ", Spaced(phrase) + " ")
  {
    var before, after := words[..i], words[i + |phrase|..];
    assert words == before + (phrase + after);
    SpacedConcat(before, phrase + after);
    SpacedConcat(phrase, after);
    var a, b, c := Spaced(before), Spaced(phrase), Spaced(after);
    assert a + (b + c) + " " == a + (b + (c + " "));
    MiddleAt(a, b, c + " ");
  }

  /** Words without spaces, each followed by a space: the first space ends the first word. */
  lemma FirstWord(a: string, b: string, restA: string, restB: string)
    requires ' ' !in a && ' ' !in b && restA != [] && restA[0] == ' ' && restB != [] && restB[0] == ' '
    requires a + restA <= b + restB
    ensures a == b && restA <= restB
  {
    var k := if |a| < |b| then |a| else |b|;
    assert (a + restA)[k] == (b + restB)[k];
    if |a| == |b| {
      assert (a + restA)[..k] == a && (b + restB)[..k] == b;
      assert (a + restA)[k..] == restA && (b + restB)[k..] == restB;
    }
  }

  lemma {:induction false} PrefixWords(phrase: seq<string>, words: seq<string>)
    requires Spaceless(phrase) && Spaceless(words) && Spaced(phrase) + " " <= Spaced(words) + " "
    ensures |phrase| <= |words| && words[..|phrase|] == phrase
  {
    if phrase != [] {
      if words == [] {
        assert false;
      } else {
        var restA, restB := Spaced(phrase[1..]) + " ", Spaced(words[1..]) + " ";
        var x, y := phrase[0] + restA, words[0] + restB;
        assert Spaced(phrase) + " " == " " + x;
        assert Spaced(words) + " " == " " + y;
        assert (" " + x)[1..] == x && (" " + y)[1..] == y;
        FirstWord(phrase[0], words[0], restA, restB);
        PrefixWords(phrase[1..], words[1..]);
        assert words[..|phrase|] == [words[0]] + words[1..][..|phrase| - 1];
      }
    }
  }

  lemma {:induction false} FoundOccurs(phrase: seq<string>, words: seq<string>, p: nat)
    requires phrase != [] && Spaceless(phrase) && Spaceless(words)
    requires p <= |Spaced(words) + " "| && Spaced(phrase) + " " <= (Spaced(words) + " ")[p..]
    ensures OccursIn(phrase, words)
  {
    var s, t := Spaced(words) + " ", Spaced(phrase) + " ";
    if p == 0 {
      assert s[0..] == s;
      PrefixWords(phrase, words);
      assert At(words, 0, phrase);
    } else if words == [] {
      assert false;
    } else {
      var rest := Spaced(words[1..]) + " ";
      assert s == (" " + words[0]) + rest;
      assert t[0] == ' ' == s[p];
      if p <= |words[0]| {
        assert false;
      }
      var q := p - 1 - |words[0]|;
      assert s[p..] == rest[q..];
      FoundOccurs(phrase, words[1..], q);
      var i :| At(words[1..], i, phrase);
      assert At(words, i + 1, phrase);
    }
  }

  /** Padded substring search is word-phrase search. */
  lemma PaddedSearch(phrase: seq<string>, words: seq<string>)
    requires phrase != [] && Spaceless(phrase) && Spaceless(words)
    ensures Contains(" " + Join(words) + " ", " " + Join(phrase) + " ") <==> OccursIn(phrase, words)
  {
    PaddedIsSpaced(phrase);
    var t := " " + Join(phrase) + " ";
    if words == [] {
      assert |t| > 2 by {
        assert |Spaced(phrase)| >= 1 + |phrase[0]|;
      }
    } else {
      PaddedIsSpaced(words);
      var s := " " + Join(words) + " ";
      if Contains(s, t) {
        var p :| At(s, p, t);
        assert s[p..][..|t|] == t;
        FoundOccurs(phrase, words, p);
      }
      if OccursIn(phrase, words) {
        var i :| At(words, i, phrase);
        OccurrenceIsFound(phrase, words, i);
      }
    }
  }

  // ----- The datacenter tokens -----

  const DATACENTER_PHRASES: seq<seq<string>> := [
    ["amazon"], ["aws"], ["google", "cloud"], ["microsoft"], ["azure"], ["digitalocean"], ["linode"], ["vultr"], ["ovh"],
    ["hetzner"], ["hostrush"], ["database", "mart"], ["hosting"], ["cloud"], ["colo"], ["datacenter"], ["data", "center"],
    ["server"]]

  lemma TokensAreJoined(k: nat)
    requires k < |DATACENTER_TOKENS|
    ensures |DATACENTER_PHRASES| == |DATACENTER_TOKENS|
    ensures DATACENTER_PHRASES[k] != [] && Spaceless(DATACENTER_PHRASES[k])
    ensures Join(DATACENTER_PHRASES[k]) == DATACENTER_TOKENS[k]
  {
    if |DATACENTER_PHRASES[k]| == 2 {
      assert DATACENTER_PHRASES[k][1..] == [DATACENTER_PHRASES[k][1]];
    }
  }

  /** The ASN string is a hosting network exactly when some token's words occur in a row among its
      normalized words. */
  lemma DatacenterByWords(asn: string, lower: string -> string, isWord: char -> bool)
    requires !isWord(' ')
    ensures |DATACENTER_PHRASES| == |DATACENTER_TOKENS|
    ensures HasDatacenterASN(asn, lower, isWord)
            <==> exists k | 0 <= k < |DATACENTER_PHRASES| :: OccursIn(DATACENTER_PHRASES[k], Words(lower(asn), isWord))
  {
    var words := Words(lower(asn), isWord);
    WordsAreProper(lower(asn), isWord);
    forall k | 0 <= k < |DATACENTER_TOKENS|
      ensures Contains(" " + Join(words) + " ", " " + DATACENTER_TOKENS[k] + " ") <==> OccursIn(DATACENTER_PHRASES[k], words)
    {
      TokensAreJoined(k);
      PaddedSearch(DATACENTER_PHRASES[k], words);
    }
  }
}
