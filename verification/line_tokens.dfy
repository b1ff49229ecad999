/**
 * Whitespace-separated items of one line of the directive file, as
 * `std::istringstream >> std::string` extracts them, and an independent
 * character-by-character definition of the words of a line to check them against.
 */
module LineTokens {

  /** The characters `std::isspace` accepts in the "C" locale: ' ' and '\t' through '\r'. */
  predicate IsSpace(c: char) {
    c == ' ' || '\t' <= c <= '\r'
  }

  predicate SpaceFree(s: string) {
    forall i :: 0 <= i < |s| ==> !IsSpace(s[i])
  }

  /** `s` without its leading whitespace. */
  function SkipSpace(s: string): (r: string)
    ensures |r| <= |s|
    ensures r == [] || !IsSpace(r[0])
  {
    if s != [] && IsSpace(s[0]) then SkipSpace(s[1..]) else s
  }

  /** Length of the longest prefix of `s` that holds no whitespace. */
  function WordLength(s: string): (n: nat)
    ensures n <= |s|
    ensures forall i :: 0 <= i < n ==> !IsSpace(s[i])
    ensures n == |s| || IsSpace(s[n])
  {
    if s == [] || IsSpace(s[0]) then 0 else 1 + WordLength(s[1..])
  }

  /**
   * One extraction `stream >> item`: the item read and the rest of the stream.
   * Leading whitespace is skipped and the item stops before the next whitespace;
   * when only whitespace is left the item stays empty.
   */
  function Extract(s: string): (r: (string, string))
    ensures r.0 == [] <==> SkipSpace(s) == []
    ensures r.0 == [] ==> r.1 == []
    ensures r.0 != [] ==> SpaceFree(r.0)
  {
    var t := SkipSpace(s);
    var n := WordLength(t);
    (t[..n], t[n..])
  }

  /**
   * The three items `line_stream >> config_type >> config_key >> config_value`
   * leaves behind: an item that is missing stays empty, and whatever follows
   * the third item is never read.
   */
  function FirstThree(line: string): (string, string, string)
  {
    var typeItem := Extract(line);
    var keyItem := Extract(typeItem.1);
    var valueItem := Extract(keyItem.1);
    (typeItem.0, keyItem.0, valueItem.0)
  }

  /**
   * The words of `s`, defined one character at a time: a non-space character
   * either starts a new word or, when the next character is a non-space too,
   * is prepended to the word that follows.
   */
  function Words(s: string): (ws: seq<string>)
    ensures forall i :: 0 <= i < |ws| ==> ws[i] != [] && SpaceFree(ws[i])
    ensures s != [] && !IsSpace(s[0]) ==> ws != []
  {
    if s == [] then []
    else if IsSpace(s[0]) then Words(s[1..])
    else
      var ws := Words(s[1..]);
      if |s| > 1 && !IsSpace(s[1]) then [[s[0]] + ws[0]] + ws[1..]
      else [[s[0]]] + ws
  }

  /** The `i`-th word of `ws`, or the empty string when there are fewer words. */
  function WordAt(ws: seq<string>, i: nat): string {
    if i < |ws| then ws[i] else []
  }

  /** Words whose first character is not a space start with the word Extract reads. */
  lemma {:induction false} WordsStartAt(s: string)
    requires s != [] && !IsSpace(s[0])
    ensures Words(s) == [s[..WordLength(s)]] + Words(s[WordLength(s)..])
    decreases |s|
  {
    var n := WordLength(s);
    if |s| > 1 && !IsSpace(s[1]) {
      var ws := Words(s[1..]);
      WordsStartAt(s[1..]);
      assert n == 1 + WordLength(s[1..]);
      assert s[1..][..WordLength(s[1..])] == s[1..n];
      assert s[1..][WordLength(s[1..])..] == s[n..];
      assert ws[0] == s[1..n] && ws[1..] == Words(s[n..]);
      assert [s[0]] + s[1..n] == s[..n];
    } else {
      assert n == 1;
      assert s[..n] == [s[0]];
    }
  }

  /** Words agrees with one extraction: the item read is the first word, the rest holds the others. */
  lemma {:induction false} ExtractIsFirstWord(s: string)
    ensures Extract(s).0 == [] ==> Words(s) == []
    ensures Extract(s).0 != [] ==> Words(s) == [Extract(s).0] + Words(Extract(s).1)
    decreases |s|
  {
    if s == [] {
    } else if IsSpace(s[0]) {
      assert SkipSpace(s) == SkipSpace(s[1..]);
      ExtractIsFirstWord(s[1..]);
    } else {
      WordsStartAt(s);
    }
  }

  /** Reading one item moves every later word one place to the front. */
  lemma ExtractShifts(s: string, i: nat)
    ensures WordAt(Words(s), 0) == Extract(s).0
    ensures WordAt(Words(s), i + 1) == WordAt(Words(Extract(s).1), i)
  {
    ExtractIsFirstWord(s);
  }

  /**
   * The three items a line yields are its first three words; an item is empty
   * exactly when the line has fewer words, and words after the third are dropped.
   */
  lemma FirstThreeAreWords(line: string)
    ensures FirstThree(line).0 == WordAt(Words(line), 0)
    ensures FirstThree(line).1 == WordAt(Words(line), 1)
    ensures FirstThree(line).2 == WordAt(Words(line), 2)
    ensures FirstThree(line).0 == [] || FirstThree(line).1 == [] || FirstThree(line).2 == []
        <==> |Words(line)| < 3
  {
    FirstThreeWords(line);
    var ws := Words(line);
    assert |ws| < 3 ==> WordAt(ws, |ws|) == [];
  }

  lemma FirstThreeWords(line: string)
    ensures FirstThree(line).0 == WordAt(Words(line), 0)
    ensures FirstThree(line).1 == WordAt(Words(line), 1)
    ensures FirstThree(line).2 == WordAt(Words(line), 2)
  {
    var e1 := Extract(line);
    var e2 := Extract(e1.1);
    ExtractShifts(line, 0);
    SecondWord(line);
    ThirdWord(line);
  }

  lemma SecondWord(line: string)
    ensures Extract(Extract(line).1).0 == WordAt(Words(line), 1)
  {
    ExtractShifts(line, 0);
    ExtractShifts(Extract(line).1, 0);
  }

  lemma ThirdWord(line: string)
    ensures Extract(Extract(Extract(line).1).1).0 == WordAt(Words(line), 2)
  {
    var rest := Extract(line).1;
    ExtractShifts(line, 1);
    SecondWord(rest);
  }

  /** A word followed by a space and more text splits off as the first word. */
  lemma {:induction false} WordsOfSpaced(w: string, rest: string)
    requires w != [] && SpaceFree(w)
    ensures Words(w + " " + rest) == [w] + Words(rest)
    decreases |w|
  {
    var s := w + " " + rest;
    assert s[0] == w[0] && !IsSpace(s[0]);
    if |w| == 1 {
      assert IsSpace(s[1]);
      assert s[1..] == " " + rest;
      assert (" " + rest)[1..] == rest;
      assert Words(s[1..]) == Words(rest);
      assert w == [s[0]];
    } else {
      assert s[1] == w[1] && !IsSpace(s[1]);
      assert s[1..] == w[1..] + " " + rest;
      WordsOfSpaced(w[1..], rest);
      assert [s[0]] + w[1..] == w;
    }
  }

  /** A single word on its own. */
  lemma {:induction false} WordsOfWord(w: string)
    requires w != [] && SpaceFree(w)
    ensures Words(w) == [w]
    decreases |w|
  {
    if |w| > 1 {
      assert !IsSpace(w[1]);
      WordsOfWord(w[1..]);
      assert [w[0]] + w[1..] == w;
    } else {
      assert w[1..] == [];
      assert w == [w[0]];
    }
  }

  /** The three items read from "t k v" are t, k and v. */
  lemma ThreeItems(t: string, k: string, v: string)
    requires t != [] && SpaceFree(t) && k != [] && SpaceFree(k) && v != [] && SpaceFree(v)
    ensures Words(t + " " + k + " " + v) == [t, k, v]
    ensures FirstThree(t + " " + k + " " + v) == (t, k, v)
  {
    var line := t + " " + k + " " + v;
    assert line == t + " " + (k + " " + v);
    WordsOfSpaced(t, k + " " + v);
    WordsOfSpaced(k, v);
    WordsOfWord(v);
    assert Words(line) == [t, k, v];
    FirstThreeAreWords(line);
  }

  /** Leading whitespace plays no part in the words of a line. */
  lemma {:induction false} WordsAfterSpaces(sp: string, rest: string)
    requires forall i :: 0 <= i < |sp| ==> IsSpace(sp[i])
    ensures Words(sp + rest) == Words(rest)
  {
    if sp != [] {
      var s := sp + rest;
      assert s[0] == sp[0] && s[1..] == sp[1..] + rest;
      assert Words(s) == Words(s[1..]);
      WordsAfterSpaces(sp[1..], rest);
    } else {
      assert sp + rest == rest;
    }
  }

  /** The first word of a line that starts with a non-space character starts with that character. */
  lemma FirstWordStart(s: string)
    requires s != [] && !IsSpace(s[0])
    ensures Words(s) != [] && Words(s)[0][0] == s[0]
  {
    WordsStartAt(s);
  }

  /** Words after the third one play no part in the first three. */
  lemma {:induction false} WordsOfThreeAndMore(t: string, k: string, v: string, rest: string)
    requires t != [] && SpaceFree(t) && k != [] && SpaceFree(k) && v != [] && SpaceFree(v)
    ensures Words(t + " " + k + " " + v + " " + rest) == [t, k, v] + Words(rest)
  {
    var r2 := v + " " + rest;
    var r1 := k + " " + r2;
    assert t + " " + k + " " + v + " " + rest == t + " " + r1;
    WordsOfSpaced(v, rest);
    WordsOfSpaced(k, r2);
    WordsOfSpaced(t, r1);
  }
}
