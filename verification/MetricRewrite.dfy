/** Prefixing the dataset references of a source metric when models are unified. */
module MetricRewrite {
  import opened Prelude

  // Which characters a word boundary counts as part of a word.
  type WordChars = char -> bool

  predicate GoodWords(word: WordChars) { word('_') && !word('.') }

  predicate AllWord(word: WordChars, s: string) { forall i | 0 <= i < |s| :: word(s[i]) }

  predicate Identifier(word: WordChars, s: string) { s != "" && AllWord(word, s) }

  predicate StartsWith(s: string, p: string) { |p| <= |s| && s[..|p|] == p }

  /** `_materialized_dataset_key` */
  function Materialized(source: string, key: string): string { source + "__" + key }

  // ----- one key -----

  /**
   * `re.sub(r"\\bKEY\\.", "SOURCE__KEY.", text)`: from the left, without overlaps. `prev` says
   * whether the character before the text is part of a word.
   */
  function Substitute(word: WordChars, source: string, key: string, text: string, prev: bool): string
    decreases |text|
  {
    if text == "" then ""
    else if StartsWith(text, key + ".") && prev != word((key + ".")[0]) then
      Materialized(source, key) + "." + Substitute(word, source, key, text[|key| + 1..], false)
    else [text[0]] + Substitute(word, source, key, text[1..], word(text[0]))
  }

  /** One substitution after the other. */
  function Sequential(word: WordChars, source: string, keys: seq<string>, text: string): string {
    if keys == [] then text
    else Substitute(word, source, keys[|keys| - 1], Sequential(word, source, keys[..|keys| - 1], text), false)
  }

  // ----- what one substitution replaces -----

  /** The key and a dot stand here, at a word boundary. */
  ghost predicate MatchAt(word: WordChars, key: string, text: string, i: nat) {
    && i + |key| + 1 <= |text| && text[i..i + |key| + 1] == key + "."
    && (i > 0 && word(text[i - 1])) != word(text[i])
  }

  /** From here on the places where the key is found, from the left and without overlaps. */
  ghost predicate FoundAt(word: WordChars, key: string, text: string, places: seq<nat>, from: nat) {
    if places == [] then forall i: nat | from <= i :: !MatchAt(word, key, text, i)
    else
      var p := places[0];
      && from <= p && MatchAt(word, key, text, p) && (forall i: nat | from <= i < p :: !MatchAt(word, key, text, i))
      && FoundAt(word, key, text, places[1..], p + |key| + 1)
  }

  /** The text from here on, with `n` characters at each of these places replaced. */
  ghost function Spliced(text: string, places: seq<nat>, n: nat, replacement: string, from: nat): string {
    if from > |text| then ""
    else if places == [] then text[from..]
    else if !(from <= places[0] <= |text|) then ""
    else text[from..places[0]] + replacement + Spliced(text, places[1..], n, replacement, places[0] + n)
  }

  predicate WordBefore(word: WordChars, text: string, i: nat)
    requires i <= |text|
  {
    i > 0 && word(text[i - 1])
  }

  /** From here on the substitution replaces exactly what is found at these places. */
  ghost predicate ReplacesAt(
    word: WordChars, source: string, key: string, text: string, places: seq<nat>, from: nat)
  {
    && from <= |text| && FoundAt(word, key, text, places, from)
    && Substitute(word, source, key, text[from..], WordBefore(word, text, from)) ==
         Spliced(text, places, |key| + 1, source + "__" + key + ".", from)
  }

  lemma {:induction false} ReplacesAtMatch(
    word: WordChars, source: string, key: string, text: string, more: seq<nat>, from: nat)
    requires GoodWords(word) && MatchAt(word, key, text, from)
    requires ReplacesAt(word, source, key, text, more, from + |key| + 1)
    ensures ReplacesAt(word, source, key, text, [from] + more, from)
  {
    FoundFirst(word, key, text, more, from);
    SubstituteAtMatch(word, source, key, text, from);
    SplicedAtMatch(text, more, |key| + 1, source + "__" + key + ".", from);
  }

  lemma {:induction false} FoundFirst(word: WordChars, key: string, text: string, more: seq<nat>, from: nat)
    requires MatchAt(word, key, text, from) && FoundAt(word, key, text, more, from + |key| + 1)
    ensures FoundAt(word, key, text, [from] + more, from)
  {
    assert ([from] + more)[1..] == more && ([from] + more)[0] == from;
  }

  lemma {:induction false} ReplacesLater(
    word: WordChars, source: string, key: string, text: string, places: seq<nat>, from: nat)
    requires GoodWords(word) && from < |text| && !MatchAt(word, key, text, from)
    requires ReplacesAt(word, source, key, text, places, from + 1)
    ensures ReplacesAt(word, source, key, text, places, from)
  {
    SubstituteNoMatch(word, source, key, text, from);
    SplicedLater(text, places, |key| + 1, source + "__" + key + ".", from);
  }

  lemma {:induction false} SubstitutesFrom(
    word: WordChars, source: string, key: string, text: string, from: nat) returns (places: seq<nat>)
    requires GoodWords(word) && from <= |text|
    ensures ReplacesAt(word, source, key, text, places, from)
    decreases |text| - from
  {
    if from == |text| {
      places := [];
    } else if MatchAt(word, key, text, from) {
      var more := SubstitutesFrom(word, source, key, text, from + |key| + 1);
      places := [from] + more;
      ReplacesAtMatch(word, source, key, text, more, from);
    } else {
      places := SubstitutesFrom(word, source, key, text, from + 1);
      ReplacesLater(word, source, key, text, places, from);
    }
  }

  lemma {:induction false} SubstituteAtMatch(
    word: WordChars, source: string, key: string, text: string, from: nat)
    requires GoodWords(word) && MatchAt(word, key, text, from)
    ensures var next := from + |key| + 1;
      Substitute(word, source, key, text[from..], WordBefore(word, text, from)) ==
      source + "__" + key + "." + Substitute(word, source, key, text[next..], WordBefore(word, text, next))
  {
    MatchIsPrefix(word, key, text, from);
    assert text[from..][|key| + 1..] == text[from + |key| + 1..];
  }

  lemma {:induction false} SubstituteNoMatch(
    word: WordChars, source: string, key: string, text: string, from: nat)
    requires GoodWords(word) && from < |text| && !MatchAt(word, key, text, from)
    ensures Substitute(word, source, key, text[from..], WordBefore(word, text, from)) ==
            [text[from]] + Substitute(word, source, key, text[from + 1..], WordBefore(word, text, from + 1))
  {
    MatchIsPrefix(word, key, text, from);
    assert text[from..][1..] == text[from + 1..] && text[from..][0] == text[from];
  }

  lemma {:induction false} SplicedAtMatch(text: string, more: seq<nat>, n: nat, replacement: string, from: nat)
    requires from <= |text|
    ensures Spliced(text, [from] + more, n, replacement, from) ==
      replacement + Spliced(text, more, n, replacement, from + n)
  {
    assert ([from] + more)[1..] == more && text[from..from] == "";
    assert "" + replacement == replacement;
  }

  lemma {:induction false} MatchIsPrefix(word: WordChars, key: string, text: string, i: nat)
    requires GoodWords(word) && i < |text|
    ensures MatchAt(word, key, text, i) <==>
      StartsWith(text[i..], key + ".") && (i > 0 && word(text[i - 1])) != word((key + ".")[0])
    ensures MatchAt(word, key, text, i) ==> text[i + |key|] == '.'
  {
    var n := |key| + 1;
    if i + n <= |text| { assert text[i..][..n] == text[i..i + n]; }
    if MatchAt(word, key, text, i) {
      assert text[i] == text[i..i + n][0] && text[i + |key|] == text[i..i + n][|key|];
    }
    if StartsWith(text[i..], key + ".") {
      assert text[i] == text[i..][..n][0];
    }
  }

  lemma {:induction false} SplicedLater(text: string, places: seq<nat>, n: nat, replacement: string, from: nat)
    requires from < |text| && (places != [] ==> from < places[0] <= |text|)
    ensures Spliced(text, places, n, replacement, from) ==
      [text[from]] + Spliced(text, places, n, replacement, from + 1)
  {
    if places == [] {
      FirstCharacter(text, from, |text|);
      assert text[from..|text|] == text[from..] && text[from + 1..|text|] == text[from + 1..];
    } else {
      var tail := Spliced(text, places[1..], n, replacement, places[0] + n);
      FirstCharacter(text, from, places[0]);
      Regroup(text[from], text[from + 1..places[0]], replacement, tail);
    }
  }

  lemma {:induction false} FirstCharacter(text: string, i: nat, j: nat)
    requires i < j <= |text|
    ensures text[i..j] == [text[i]] + text[i + 1..j]
  {
  }

  lemma {:induction false} Regroup(c: char, x: string, y: string, z: string)
    ensures ([c] + x) + y + z == [c] + (x + y + z)
  {
  }

  /**
   * One substitution, for any key: exactly the places where key and dot stand at a word boundary,
   * from the left and without overlaps, get the source key and two underscores in front.
   */
  lemma {:induction false} SubstituteReplacesMatches(word: WordChars, source: string, key: string, text: string)
    returns (places: seq<nat>)
    requires GoodWords(word)
    ensures FoundAt(word, key, text, places, 0)
    ensures Substitute(word, source, key, text, false) ==
            Spliced(text, places, |key| + 1, source + "__" + key + ".", 0)
  {
    places := SubstitutesFrom(word, source, key, text, 0);
    assert text[0..] == text;
  }

  // ----- all keys at once -----

  /** The word the text starts with. */
  function Run(word: WordChars, text: string): (w: string)
    ensures |w| <= |text| && text[..|w|] == w && AllWord(word, w)
    ensures |w| < |text| ==> !word(text[|w|])
  {
    if text == "" || !word(text[0]) then "" else [text[0]] + Run(word, text[1..])
  }

  /** A dataset reference: a whole word that is a key, followed by a dot. */
  predicate IsReference(word: WordChars, keys: set<string>, text: string) {
    var w := Run(word, text);
    w in keys && |w| < |text| && text[|w|] == '.'
  }

  /** Prefix every dataset reference of the text, and nothing else. */
  function Simultaneous(word: WordChars, source: string, keys: set<string>, text: string, prev: bool): string
    decreases |text|
  {
    if text == "" then ""
    else if !prev && IsReference(word, keys, text) then
      var w := Run(word, text);
      Materialized(source, w) + "." + Simultaneous(word, source, keys, text[|w| + 1..], false)
    else [text[0]] + Simultaneous(word, source, keys, text[1..], word(text[0]))
  }

  // ----- word by word -----

  /** `w` is a word of the text `w + t`. */
  predicate WholeWord(word: WordChars, w: string, t: string) { Identifier(word, w) && (t == "" || !word(t[0])) }

  lemma {:induction false} RunOfWord(word: WordChars, w: string, t: string)
    requires AllWord(word, w) && (t == "" || !word(t[0]))
    ensures Run(word, w + t) == w
  {
    if w != "" {
      assert (w + t)[1..] == w[1..] + t;
      RunOfWord(word, w[1..], t);
    } else {
      assert w + t == t;
    }
  }

  /** A key matches at the start of a word only when it is the whole word, and a dot follows. */
  lemma {:induction false} MatchIsWholeWord(word: WordChars, key: string, w: string, t: string)
    requires GoodWords(word) && Identifier(word, key) && WholeWord(word, w, t)
    ensures StartsWith(w + t, key + ".") <==> w == key && t != "" && t[0] == '.'
  {
    var s := w + t;
    RunOfWord(word, w, t);
    if StartsWith(s, key + ".") {
      var rest := "." + s[|key| + 1..];
      assert s == key + rest;
      RunOfWord(word, key, rest);
      assert t == s[|key|..] == rest;
    }
    if w == key && t != "" && t[0] == '.' {
      assert s[..|key| + 1] == key + ".";
    }
  }

  lemma {:induction false} InsideWord(word: WordChars, source: string, key: string, w: string, t: string)
    requires GoodWords(word) && Identifier(word, key) && AllWord(word, w)
    ensures Substitute(word, source, key, w + t, true) == w + Substitute(word, source, key, t, true)
  {
    if w == "" {
      assert w + t == t;
    } else {
      assert (w + t)[0] == w[0] && (w + t)[1..] == w[1..] + t;
      InsideWord(word, source, key, w[1..], t);
    }
  }

  lemma {:induction false} SubstituteWord(word: WordChars, source: string, key: string, w: string, t: string)
    requires GoodWords(word) && Identifier(word, key) && WholeWord(word, w, t)
    ensures Substitute(word, source, key, w + t, false) ==
      if w == key && t != "" && t[0] ==
        '.' then Materialized(source, key) + "." + Substitute(word, source, key, t[1..], false)
      else w + Substitute(word, source, key, t, true)
  {
    MatchIsWholeWord(word, key, w, t);
    if w == key && t != "" && t[0] == '.' {
      assert (w + t)[|key| + 1..] == t[1..];
    } else {
      UnmatchedWord(word, source, key, w, t);
    }
  }

  lemma {:induction false} UnmatchedWord(word: WordChars, source: string, key: string, w: string, t: string)
    requires GoodWords(word) && Identifier(word, key) && Identifier(word, w) && !StartsWith(w + t, key + ".")
    ensures Substitute(word, source, key, w + t, false) == w + Substitute(word, source, key, t, true)
  {
    var s, rest := w + t, Substitute(word, source, key, t, true);
    assert s[0] == w[0] && s[1..] == w[1..] + t;
    InsideWord(word, source, key, w[1..], t);
    assert [w[0]] + (w[1..] + rest) == w + rest;
  }

  lemma {:induction false} SimultaneousInsideWord(
    word: WordChars, source: string, keys: set<string>, w: string, t: string)
    requires AllWord(word, w)
    ensures Simultaneous(word, source, keys, w + t, true) == w + Simultaneous(word, source, keys, t, true)
  {
    if w == "" {
      assert w + t == t;
    } else {
      assert (w + t)[0] == w[0] && (w + t)[1..] == w[1..] + t;
      SimultaneousInsideWord(word, source, keys, w[1..], t);
    }
  }

  lemma {:induction false} SimultaneousWord(word: WordChars, source: string, keys: set<string>, w: string, t: string)
    requires WholeWord(word, w, t)
    ensures Simultaneous(word, source, keys, w + t, false) ==
      if w in keys && t != "" && t[0] ==
        '.' then Materialized(source, w) + "." + Simultaneous(word, source, keys, t[1..], false)
      else w + Simultaneous(word, source, keys, t, true)
  {
    var s := w + t;
    RunOfWord(word, w, t);
    if w in keys && t != "" && t[0] == '.' {
      assert s[|w| + 1..] == t[1..];
    } else {
      var rest := Simultaneous(word, source, keys, t, true);
      assert s[0] == w[0] && s[1..] == w[1..] + t;
      SimultaneousInsideWord(word, source, keys, w[1..], t);
      assert [w[0]] + (w[1..] + rest) == w + rest;
    }
  }

  /** A character that is not part of a word stays, and what follows starts afresh. */
  lemma {:induction false} OtherCharacter(
    word: WordChars, source: string, keys: set<string>, key: string, text: string, prev: bool)
    requires text != "" && !word(text[0]) && "" !in keys && Identifier(word, key)
    ensures Simultaneous(word, source, keys, text, prev) ==
      [text[0]] + Simultaneous(word, source, keys, text[1..], false)
    ensures Substitute(word, source, key, text, prev) == [text[0]] + Substitute(word, source, key, text[1..], false)
  {
  }

  /** The text that follows a rewritten word still starts with something that is not part of a word. */
  lemma {:induction false} BoundaryKept(word: WordChars, source: string, keys: set<string>, t: string)
    requires (t == "" || !word(t[0])) && "" !in keys
    ensures var t' := Simultaneous(word, source, keys, t, true);
      if t == "" then t' == ""
      else t' != "" && t'[0] == t[0] && t'[1..] == Simultaneous(word, source, keys, t[1..], false)
  {
  }

  ghost predicate Identifiers(word: WordChars, keys: set<string>) { forall k | k in keys :: Identifier(word, k) }

  lemma {:induction false} MaterializedIsIdentifier(word: WordChars, source: string, key: string)
    requires GoodWords(word) && Identifier(word, source) && Identifier(word, key)
    ensures Identifier(word, Materialized(source, key))
  {
  }

  /** One more key: substituting it after the others is substituting it with them, when no inserted text is the key. */
  lemma {:induction false} OneMoreKey(word: WordChars, source: string, keys: set<string>, key: string, text: string)
    requires GoodWords(word) && Identifier(word, source) && Identifiers(word, keys) && Identifier(word, key)
    requires key !in keys && forall k | k in keys :: Materialized(source, k) != key
    ensures Substitute(word, source, key, Simultaneous(word, source, keys, text, false), false) ==
            Simultaneous(word, source, keys + {key}, text, false)
    decreases |text|
  {
    if text != "" {
      var w := Run(word, text);
      var t := text[|w|..];
      assert text == w + t;
      if w == "" {
        OtherCharacter(word, source, keys, key, text, false);
        OtherCharacter(word, source, keys + {key}, key, text, false);
        var rest := Simultaneous(word, source, keys, text[1..], false);
        assert ([text[0]] + rest)[1..] == rest;
        OtherCharacter(word, source, keys, key, [text[0]] + rest, false);
        OneMoreKey(word, source, keys, key, text[1..]);
      } else {
        OneMoreKeyWord(word, source, keys, key, w, t);
      }
    }
  }

  lemma {:induction false} OneMoreKeyWord(
    word: WordChars, source: string, keys: set<string>, key: string, w: string, t: string)
    requires GoodWords(word) && Identifier(word, source) && Identifiers(word, keys) && Identifier(word, key)
    requires key !in keys && forall k | k in keys :: Materialized(source, k) != key
    requires WholeWord(word, w, t)
    ensures Substitute(word, source, key, Simultaneous(word, source, keys, w + t, false), false) ==
            Simultaneous(word, source, keys + {key}, w + t, false)
    decreases |w + t|, 0
  {
    SimultaneousWord(word, source, keys, w, t);
    SimultaneousWord(word, source, keys + {key}, w, t);
    if t != "" { OneMoreKey(word, source, keys, key, t[1..]); }
    if w in keys && t != "" && t[0] == '.' {
      RewrittenWordStays(word, source, key, w, Simultaneous(word, source, keys, t[1..], false));
    } else {
      OtherWord(word, source, keys, key, w, t);
    }
  }

  /** A word that was just rewritten is not rewritten again. */
  lemma {:induction false} RewrittenWordStays(word: WordChars, source: string, key: string, w: string, rest: string)
    requires GoodWords(word) && Identifier(word, source) && Identifier(word, w) && Identifier(word, key)
    requires Materialized(source, w) != key
    ensures Substitute(word, source, key, Materialized(source, w) + "." + rest, false) ==
            Materialized(source, w) + "." + Substitute(word, source, key, rest, false)
  {
    var m, after, rest' := Materialized(source, w), "." + rest, Substitute(word, source, key, rest, false);
    MaterializedIsIdentifier(word, source, w);
    SubstituteWord(word, source, key, m, after);
    DotThenRest(word, source, key, rest);
    assert m + after == m + "." + rest && m + ("." + rest') == m + "." + rest';
  }

  lemma {:induction false} DotThenRest(word: WordChars, source: string, key: string, rest: string)
    requires GoodWords(word) && Identifier(word, key)
    ensures Substitute(word, source, key, "." + rest, true) == "." + Substitute(word, source, key, rest, false)
  {
    OtherCharacter(word, source, {}, key, "." + rest, true);
    assert ("." + rest)[1..] == rest;
  }

  /** A word that is not a reference to one of `keys` is left to the new key. */
  lemma {:induction false} OtherWord(
    word: WordChars, source: string, keys: set<string>, key: string, w: string, t: string)
    requires GoodWords(word) && Identifiers(word, keys) && Identifier(word, key) && WholeWord(word, w, t)
    requires !(w in keys && t != "" && t[0] == '.')
    requires t != "" ==>
      Substitute(word, source, key, Simultaneous(word, source, keys, t[1..], false), false) ==
        Simultaneous(word, source, keys + {key}, t[1..], false)
    ensures Substitute(word, source, key, w + Simultaneous(word, source, keys, t, true), false) ==
            Simultaneous(word, source, keys + {key}, w + t, false)
  {
    var after := Simultaneous(word, source, keys, t, true);
    SimultaneousWord(word, source, keys + {key}, w, t);
    BoundaryKept(word, source, keys, t);
    BoundaryKept(word, source, keys + {key}, t);
    SubstituteWord(word, source, key, w, after);
    if t != "" {
      OtherCharacter(word, source, keys, key, after, true);
      var after' := Simultaneous(word, source, keys + {key}, t, true);
      assert after' == [t[0]] + after'[1..];
    }
  }

  /** No key is what an earlier key was rewritten to. */
  ghost predicate NoCapture(source: string, keys: seq<string>) {
    forall i, j | 0 <= i < j < |keys| :: Materialized(source, keys[i]) != keys[j]
  }

  ghost predicate DistinctKeys(keys: seq<string>) { forall i, j | 0 <= i < j < |keys| :: keys[i] != keys[j] }

  function KeySet(keys: seq<string>): set<string> { set k | k in keys }

  /** Rewriting key by key prefixes every reference exactly once when no inserted text is a later key. */
  lemma {:induction false} SequentialIsSimultaneous(word: WordChars, source: string, keys: seq<string>, text: string)
    requires GoodWords(word) && Identifier(word, source) && Identifiers(word, KeySet(keys)) && DistinctKeys(keys)
    requires NoCapture(source, keys)
    ensures Sequential(word, source, keys, text) == Simultaneous(word, source, KeySet(keys), text, false)
  {
    if keys == [] {
      assert KeySet(keys) == {};
      NothingToRewrite(word, source, text, false);
    } else {
      var init, last := keys[..|keys| - 1], keys[|keys| - 1];
      assert keys == init + [last];
      SequentialIsSimultaneous(word, source, init, text);
      assert KeySet(keys) == KeySet(init) + {last};
      assert last in keys && last !in init;
      OneMoreKey(word, source, KeySet(init), last, text);
    }
  }

  lemma {:induction false} NothingToRewrite(word: WordChars, source: string, text: string, prev: bool)
    ensures Simultaneous(word, source, {}, text, prev) == text
    decreases |text|
  {
    if text != "" {
      NothingToRewrite(word, source, text[1..], word(text[0]));
      assert text == [text[0]] + text[1..];
    }
  }

  // ----- the exact condition -----

  /** What happens to one reference, key by key. */
  function Chase(source: string, keys: seq<string>, w: string): string {
    if keys == [] then w
    else
      var before := Chase(source, keys[..|keys| - 1], w);
      if before == keys[|keys| - 1] then Materialized(source, before) else before
  }

  lemma {:induction false} SequentialOnReference(word: WordChars, source: string, keys: seq<string>, w: string)
    requires GoodWords(word) && Identifier(word, source) && Identifiers(word, KeySet(keys)) && Identifier(word, w)
    ensures Identifier(word, Chase(source, keys, w))
    ensures Sequential(word, source, keys, w + ".") == Chase(source, keys, w) + "."
  {
    if keys != [] {
      var init, last := keys[..|keys| - 1], keys[|keys| - 1];
      assert last in KeySet(keys);
      forall k | k in KeySet(init) ensures k in KeySet(keys) {}
      SequentialOnReference(word, source, init, w);
      var before := Chase(source, init, w);
      SubstituteWord(word, source, last, before, ".");
      assert "."[1..] == "";
      OtherCharacter(word, source, {}, last, ".", true);
      if before == last { MaterializedIsIdentifier(word, source, last); }
      assert Materialized(source, last) + "." + "" == Materialized(source, last) + ".";
    }
  }

  lemma {:induction false} ChaseGrows(source: string, keys: seq<string>, n: nat, w: string)
    requires n <= |keys|
    ensures |Chase(source, keys[..n], w)| <= |Chase(source, keys, w)|
  {
    if n == |keys| {
      assert keys[..n] == keys;
    } else {
      ChaseGrows(source, keys[..|keys| - 1], n, w);
      assert keys[..|keys| - 1][..n] == keys[..n];
    }
  }

  lemma {:induction false} NotYetReached(source: string, keys: seq<string>, w: string)
    requires w !in keys
    ensures Chase(source, keys, w) == w
  {
    if keys != [] { NotYetReached(source, keys[..|keys| - 1], w); }
  }

  lemma {:induction false} StaysUntil(source: string, keys: seq<string>, i: nat, w: string, m: string)
    requires i <= |keys| && Chase(source, keys[..i], w) == m && m !in keys[i..]
    ensures Chase(source, keys, w) == m
    decreases |keys|
  {
    if i == |keys| {
      assert keys[..i] == keys;
    } else {
      var init := keys[..|keys| - 1];
      assert init[..i] == keys[..i];
      assert keys[i..] == init[i..] + [keys[|keys| - 1]];
      StaysUntil(source, init, i, w, m);
    }
  }

  /** A captured key makes a reference grow twice. */
  lemma {:induction false} CaptureRewritesTwice(source: string, keys: seq<string>, i: nat, j: nat)
    requires DistinctKeys(keys) && i < j < |keys| && Materialized(source, keys[i]) == keys[j]
    ensures |Chase(source, keys, keys[i])| > |Materialized(source, keys[i])|
  {
    var w, m := keys[i], keys[j];
    NotYetReached(source, keys[..i], w);
    assert keys[..i + 1][..i] == keys[..i] && Chase(source, keys[..i + 1], w) == m;
    assert keys[..j][..i + 1] == keys[..i + 1];
    assert m !in keys[..j][i + 1..];
    StaysUntil(source, keys[..j], i + 1, w, m);
    assert keys[..j + 1][..j] == keys[..j] && Chase(source, keys[..j + 1], w) == Materialized(source, m);
    ChaseGrows(source, keys, j + 1, w);
  }

  /**
   * The exact condition: rewriting key by key is right for every text if and only if no key is
   * the prefixed form of an earlier one.
   */
  lemma {:induction false} SequentialIsRightIffNoCapture(word: WordChars, source: string, keys: seq<string>)
    requires GoodWords(word) && Identifier(word, source) && Identifiers(word, KeySet(keys)) && DistinctKeys(keys)
    ensures NoCapture(source, keys) <==>
      forall text :: Sequential(word, source, keys, text) == Simultaneous(word, source, KeySet(keys), text, false)
  {
    if NoCapture(source, keys) {
      forall text
        ensures Sequential(word, source, keys, text) == Simultaneous(word, source, KeySet(keys), text, false)
      {
        SequentialIsSimultaneous(word, source, keys, text);
      }
    } else {
      var i, j :| 0 <= i < j < |keys| && Materialized(source, keys[i]) == keys[j];
      var w := keys[i];
      assert w in KeySet(keys);
      CaptureRewritesTwice(source, keys, i, j);
      SequentialOnReference(word, source, keys, w);
      SimultaneousWord(word, source, KeySet(keys), w, ".");
      assert Sequential(word, source, keys, w + ".") != Simultaneous(word, source, KeySet(keys), w + ".", false);
    }
  }

  /** A key before a dot gets the source and two underscores in front of it; the rest is rewritten alike. */
  lemma {:induction false} ReferenceIsPrefixed(
    word: WordChars, source: string, keys: set<string>, key: string, rest: string)
    requires GoodWords(word) && Identifiers(word, keys) && key in keys
    ensures Simultaneous(word, source, keys, key + "." + rest, false) ==
      source + "__" + key + "." + Simultaneous(word, source, keys, rest, false)
  {
    var text := key + "." + rest;
    assert text == key + ("." + rest);
    RunOfWord(word, key, "." + rest);
    assert text[|key|] == '.' && text[|key| + 1..] == rest;
  }

  // ----- longest first -----

  function InsertLongest(k: string, s: seq<string>): seq<string> {
    if s == [] || |k| >= |s[0]| then [k] + s else [s[0]] + InsertLongest(k, s[1..])
  }

  /** `sorted(keys, key=len, reverse=True)`: longest first, equal lengths in their old order. */
  function LongestFirst(keys: seq<string>): seq<string> {
    if keys == [] then [] else InsertLongest(keys[0], LongestFirst(keys[1..]))
  }

  ghost predicate Descending(s: seq<string>) { forall i, j | 0 <= i < j < |s| :: |s[i]| >= |s[j]| }

  lemma {:induction false} InsertLongestSorts(k: string, s: seq<string>)
    requires Descending(s) && DistinctKeys(s) && k !in s
    ensures Descending(InsertLongest(k, s)) && DistinctKeys(InsertLongest(k, s))
    ensures forall x :: x in InsertLongest(k, s) <==> x == k || x in s
  {
    if s != [] && |k| < |s[0]| {
      assert s == [s[0]] + s[1..];
      InsertLongestSorts(k, s[1..]);
      var t := InsertLongest(k, s[1..]);
      forall j | 0 <= j < |t| ensures |s[0]| >= |t[j]| && s[0] != t[j] {
        assert t[j] in t;
        assert t[j] == k || t[j] in s[1..];
      }
    }
  }

  lemma {:induction false} LongestFirstSorts(keys: seq<string>)
    requires DistinctKeys(keys)
    ensures Descending(LongestFirst(keys)) && DistinctKeys(LongestFirst(keys))
    ensures KeySet(LongestFirst(keys)) == KeySet(keys)
  {
    if keys != [] {
      assert keys == [keys[0]] + keys[1..];
      LongestFirstSorts(keys[1..]);
      assert forall x :: x in LongestFirst(keys[1..]) <==> x in KeySet(LongestFirst(keys[1..]));
      InsertLongestSorts(keys[0], LongestFirst(keys[1..]));
    }
  }

  /** Longest first, what is inserted is longer than every key still to come. */
  lemma {:induction false} LongestFirstNeverCaptures(source: string, keys: seq<string>)
    requires Descending(keys)
    ensures NoCapture(source, keys)
  {
  }

  /** `_rewrite_source_metric_expression`; `keys` are the keys of a dict, hence distinct. */
  method RewriteSourceMetric(word: WordChars, source: string, keys: seq<string>, expression: string)
    returns (rewritten: string)
    requires GoodWords(word) && DistinctKeys(keys)
    ensures rewritten == Sequential(word, source, LongestFirst(keys), expression)
    ensures Identifier(word, source) && Identifiers(word, KeySet(keys)) ==>
      rewritten == Simultaneous(word, source, KeySet(keys), expression, false)
  {
    rewritten := expression;
    var sorted := LongestFirst(keys);
    LongestFirstSorts(keys);
    for i := 0 to |sorted|
      invariant rewritten == Sequential(word, source, sorted[..i], expression)
    {
      assert sorted[..i + 1][..i] == sorted[..i];
      rewritten := Substitute(word, source, sorted[i], rewritten, false);
    }
    assert sorted[..|sorted|] == sorted;
    if Identifier(word, source) && Identifiers(word, KeySet(keys)) {
      LongestFirstNeverCaptures(source, sorted);
      SequentialIsSimultaneous(word, source, sorted, expression);
    }
  }
}
