/**
 * The offline text adjustment, `keywords_factor` (fascitis-app/app.py,
 * lines 76-89): the notes are lower-cased, each of seven fixed keywords that
 * occurs in them as a substring counts once, and 0.05 per hit is clamped to
 * `[0, 0.3]`.
 */
module TextSignal {
  import opened Calibration

  /** The keywords, already in lower case, in the order the source lists them. */
  const Keywords: seq<string> := [
    "dolor desproporcionado",
    "crepitación",
    "bullas",
    "necrosis",
    "progresión rápida",
    "sepsis",
    "hipotensión"
  ]

  /**
   * Lower-casing of one character as `str.lower()` does it for the ASCII
   * capitals and the Latin-1 capitals À to Þ (the sign × excepted); every
   * other character is left as it is.
   */
  function LowerChar(c: char): char
  {
    if 'A' <= c <= 'Z' then (c as int + 32) as char
    else if 'À' <= c <= 'Þ' && c != '×' then (c as int + 32) as char
    else c
  }

  /** Lower-casing of a text, character by character. */
  function Lower(s: string): (r: string)
    ensures |r| == |s|
    ensures forall i :: 0 <= i < |s| ==> r[i] == LowerChar(s[i])
  {
    if s == [] then [] else [LowerChar(s[0])] + Lower(s[1..])
  }

  /** Lower-casing distributes over concatenation. */
  lemma LowerAppend(s: string, u: string)
    ensures Lower(s + u) == Lower(s) + Lower(u)
  {
  }

  /** Lower-casing a lower-cased text changes nothing. */
  lemma LowerIdempotent(s: string)
    ensures Lower(Lower(s)) == Lower(s)
  {
  }

  /** A text without capitals is its own lower-cased form. */
  lemma LowerKeepsLowerCase(s: string)
    requires forall i :: 0 <= i < |s| ==> !('A' <= s[i] <= 'Z') && !('À' <= s[i] <= 'Þ')
    ensures Lower(s) == s
  {
  }

  /**
   * Python's `kw in t`, as a scan over the start positions: `kw` is a
   * prefix of `t` or occurs in the rest of `t`.
   */
  predicate Contains(t: string, kw: string)
    decreases |t|
  {
    kw <= t || (t != [] && Contains(t[1..], kw))
  }

  /** The reference meaning of a substring: `kw` sits at some position of `t`. */
  ghost predicate Occurs(t: string, kw: string)
  {
    exists i :: 0 <= i <= |t| && kw <= t[i..]
  }

  /** The scan finds `kw` exactly when `kw` occurs somewhere in `t`. */
  lemma {:induction false} ContainsIffOccurs(t: string, kw: string)
    ensures Contains(t, kw) <==> Occurs(t, kw)
    decreases |t|
  {
    assert kw <= t ==> kw <= t[0..];
    if t != [] {
      ContainsIffOccurs(t[1..], kw);
      if Occurs(t, kw) && !(kw <= t) {
        var i :| 0 <= i <= |t| && kw <= t[i..];
        assert i != 0;
        assert t[1..][i - 1..] == t[i..];
      }
      if Occurs(t[1..], kw) {
        var i :| 0 <= i <= |t[1..]| && kw <= t[1..][i..];
        assert t[i + 1..] == t[1..][i..];
      }
    } else {
      if Occurs(t, kw) {
        var i :| 0 <= i <= |t| && kw <= t[i..];
        assert t[i..] == t;
      }
    }
  }

  /** A keyword found at position `i` is found by the scan. */
  lemma FoundAt(t: string, kw: string, i: nat)
    requires i <= |t| && kw <= t[i..]
    ensures Contains(t, kw)
  {
    ContainsIffOccurs(t, kw);
  }

  /** Text added after the notes keeps every match. */
  lemma {:induction false} ContainsAppendRight(t: string, u: string, kw: string)
    requires Contains(t, kw)
    ensures Contains(t + u, kw)
    decreases |t|
  {
    if kw <= t {
      assert kw <= t + u;
    } else {
      ContainsAppendRight(t[1..], u, kw);
      assert (t + u)[1..] == t[1..] + u;
    }
  }

  /** Text added before the notes keeps every match. */
  lemma {:induction false} ContainsAppendLeft(u: string, t: string, kw: string)
    requires Contains(t, kw)
    ensures Contains(u + t, kw)
    decreases |u|
  {
    if u != [] {
      ContainsAppendLeft(u[1..], t, kw);
      assert (u + t)[1..] == u[1..] + t;
    } else {
      assert u + t == t;
    }
  }

  /** A keyword with a character the text lacks cannot occur in it. */
  lemma {:induction false} MissingCharacterExcludes(t: string, kw: string, c: char)
    requires c in kw && c !in t
    ensures !Contains(t, kw)
    decreases |t|
  {
    if t != [] {
      MissingCharacterExcludes(t[1..], kw, c);
    }
  }

  /** `sum(1 for kw in kws if kw in t)`: each keyword of `kws` adds one if it occurs. */
  function Hits(kws: seq<string>, t: string): (n: nat)
    ensures n <= |kws|
  {
    if kws == [] then 0
    else (if Contains(t, kws[0]) then 1 else 0) + Hits(kws[1..], t)
  }

  /** The keywords of `kws` that occur in `t`, as a set. */
  function Matched(kws: seq<string>, t: string): set<string>
  {
    set k | k in kws && Contains(t, k)
  }

  predicate Distinct(kws: seq<string>)
  {
    forall i, j :: 0 <= i < j < |kws| ==> kws[i] != kws[j]
  }

  /**
   * For a list without repetitions the count is the number of distinct
   * keywords that occur: a keyword found several times counts once.
   */
  lemma {:induction false} HitsCountsMatched(kws: seq<string>, t: string)
    requires Distinct(kws)
    ensures Hits(kws, t) == |Matched(kws, t)|
  {
    if kws == [] {
      assert Matched(kws, t) == {};
    } else {
      HitsCountsMatched(kws[1..], t);
      var rest := Matched(kws[1..], t);
      assert kws[0] !in rest;
      if Contains(t, kws[0]) {
        assert Matched(kws, t) == {kws[0]} + rest;
      } else {
        assert Matched(kws, t) == rest;
      }
    }
  }

  /** Every match in `t` is still a match in a longer text around it. */
  lemma {:induction false} HitsGrowWithText(kws: seq<string>, u: string, t: string, w: string)
    ensures Hits(kws, t) <= Hits(kws, u + t + w)
  {
    if kws != [] {
      HitsGrowWithText(kws[1..], u, t, w);
      if Contains(t, kws[0]) {
        ContainsAppendLeft(u, t, kws[0]);
        ContainsAppendRight(u + t, w, kws[0]);
      }
    }
  }

  lemma KeywordsDistinct()
    ensures Distinct(Keywords)
  {
  }

  /**
   * `keywords_factor`: 0.05 for each distinct keyword found in the
   * lower-cased notes, saturated at 0.3 (reached from six hits on).
   */
  function KeywordsFactor(text: string): (r: real)
    ensures 0.0 <= r <= 0.3
    ensures var m := |Matched(Keywords, Lower(text))|;
      m <= 7 && r == if m <= 6 then 0.05 * m as real else 0.3
  {
    var hits := Hits(Keywords, Lower(text));
    KeywordsDistinct();
    HitsCountsMatched(Keywords, Lower(text));
    Clamp(0.05 * hits as real, 0.0, 0.3)
  }

  /** Upper and lower case in the notes make no difference. */
  lemma FactorIgnoresCase(text: string)
    ensures KeywordsFactor(Lower(text)) == KeywordsFactor(text)
  {
    LowerIdempotent(text);
  }

  /** More notes around the text never lower the factor. */
  lemma FactorGrowsWithText(u: string, text: string, w: string)
    ensures KeywordsFactor(text) <= KeywordsFactor(u + text + w)
  {
    LowerAppend(u + text, w);
    LowerAppend(u, text);
    HitsGrowWithText(Keywords, Lower(u), Lower(text), Lower(w));
    ClampMonotone(0.05 * Hits(Keywords, Lower(text)) as real,
                  0.05 * Hits(Keywords, Lower(u + text + w)) as real, 0.0, 0.3);
  }

  /** Notes without any keyword, the empty notes among them, give 0. */
  lemma NoKeywordGivesZero(text: string)
    requires forall k :: k in Keywords ==> !Contains(Lower(text), k)
    ensures KeywordsFactor(text) == 0.0
  {
    assert Matched(Keywords, Lower(text)) == {};
  }

  lemma EmptyNotesGiveZero()
    ensures KeywordsFactor("") == 0.0
  {
    NoKeywordGivesZero("");
  }

}
