/** The hub's `sanitize` helper (cmd/smh-core/main.go): the regexp
    [^a-zA-Z0-9_]+ replaced by "_", then lower case. It turns a device id
    into the unique id of its discovery configs. */
module CoreSanitize {
  import opened GoText

  /** A character the regexp's class [^a-zA-Z0-9_] does not match. */
  predicate IsWord(c: char) {
    'a' <= c <= 'z' || 'A' <= c <= 'Z' || '0' <= c <= '9' || c == '_'
  }

  /** A character sanitize can produce. */
  predicate IsSanitized(c: char) {
    'a' <= c <= 'z' || '0' <= c <= '9' || c == '_'
  }

  /** The rest of a run of non-word characters: `s` without its leading
      non-word characters. */
  function DropRun(s: string): (r: string)
    ensures |r| <= |s|
    ensures r == [] || IsWord(r[0])
  {
    if s == [] || IsWord(s[0]) then s else DropRun(s[1..])
  }

  /** What DropRun drops is a prefix of non-word characters. */
  lemma {:induction false} DropRunSuffix(s: string)
    ensures var r := DropRun(s);
      && r == s[|s| - |r|..] && forall i | 0 <= i < |s| - |r| :: !IsWord(s[i])
  {
    if s != [] && !IsWord(s[0]) {
      DropRunSuffix(s[1..]);
    }
  }

  /** ReplaceAllString(s, "_"): every maximal run of non-word characters
      becomes one "_", word characters are kept in order. */
  function Replace(s: string): (r: string)
    ensures |r| <= |s|
    ensures forall i | 0 <= i < |r| :: IsWord(r[i])
    decreases |s|
  {
    if s == [] then []
    else if IsWord(s[0]) then [s[0]] + Replace(s[1..])
    else "_" + Replace(DropRun(s[1..]))
  }

  /** sanitize: its output uses only [a-z0-9_] and is never longer than
      its input. */
  function Sanitize(s: string): (r: string)
    ensures |r| <= |s|
    ensures forall i | 0 <= i < |r| :: IsSanitized(r[i])
  {
    var w := Replace(s);
    assert forall i | 0 <= i < |w| :: IsWord(w[i]);
    ToLower(w)
  }

  /** A run of word characters is copied. */
  lemma {:induction false} ReplaceWords(w: string, s: string)
    requires forall i | 0 <= i < |w| :: IsWord(w[i])
    ensures Replace(w + s) == w + Replace(s)
    decreases |w|
  {
    if w != [] {
      assert (w + s)[0] == w[0];
      assert (w + s)[1..] == w[1..] + s;
      ReplaceWords(w[1..], s);
      assert [w[0]] + (w[1..] + Replace(s)) == w + Replace(s);
    } else {
      assert w + s == s;
    }
  }

  /** A maximal run of non-word characters becomes exactly one "_". */
  lemma ReplaceRun(r: string, s: string)
    requires r != [] && forall i | 0 <= i < |r| :: !IsWord(r[i])
    requires s == [] || IsWord(s[0])
    ensures Replace(r + s) == "_" + Replace(s)
  {
    assert (r + s)[0] == r[0];
    assert (r + s)[1..] == r[1..] + s;
    DropRunOf(r[1..], s);
  }

  lemma {:induction false} DropRunOf(r: string, s: string)
    requires forall i | 0 <= i < |r| :: !IsWord(r[i])
    requires s == [] || IsWord(s[0])
    ensures DropRun(r + s) == s
    decreases |r|
  {
    if r != [] {
      assert (r + s)[0] == r[0];
      assert (r + s)[1..] == r[1..] + s;
      DropRunOf(r[1..], s);
    } else {
      assert r + s == s;
    }
  }

  /** sanitize changes nothing the second time. */
  lemma SanitizeIdempotent(s: string)
    ensures Sanitize(Sanitize(s)) == Sanitize(s)
  {
    var t := Sanitize(s);
    ReplaceWords(t, []);
    assert t + [] == t;
    assert Replace(t) == t;
    assert ToLower(t) == t;
  }

  /** The regexp step on the example device id "cw100.Inverter#1"
      (written as its pieces): each separator becomes "_". */
  lemma ReplaceExample()
    ensures Replace("cw100" + "." + "Inverter" + "#" + "1") == "cw100" + "_" + "Inverter" + "_" + "1"
  {
    var a, dot, b, hash, one := "cw100", ".", "Inverter", "#", "1";
    var t1 := hash + one;
    var t2 := b + t1;
    var t3 := dot + t2;
    var t4 := a + t3;
    ReplaceWords(one, []);
    assert one + [] == one;
    ReplaceRun(hash, one);
    ReplaceWords(b, t1);
    ReplaceRun(dot, t2);
    ReplaceWords(a, t3);
    assert t4 == a + dot + b + hash + one;
  }

  /** The whole example: "cw100.Inverter#1" becomes "cw100_inverter_1". */
  lemma SanitizeExample()
    ensures Sanitize("cw100" + "." + "Inverter" + "#" + "1") == "cw100_inverter_1"
  {
    ReplaceExample();
    var r := "cw100" + "_" + "Inverter" + "_" + "1";
    var l := ToLower(r);
    assert |l| == 16;
    forall i | 0 <= i < 16
      ensures l[i] == "cw100_inverter_1"[i]
    {
      assert l[i] == LowerChar(r[i]);
    }
  }
}
