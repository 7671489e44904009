// The matcher of grep.c against the language of its patterns.
module Grep {
  // It finds a match exactly if some part of the text is in the language.
  datatype Regex = Empty | Sym(c: char) | Any | Then(first: Regex, second: Regex) | Star(body: Regex)

  // What a match begins with, and whether it must reach the end of the text.
  datatype Pattern = Pattern(body: Regex, toEnd: bool)

  // Membership in the language of a regular expression.
  ghost predicate In(r: Regex, w: string)
    decreases r, |w|
  {
    match r
    case Empty => w == ""
    case Sym(c) => w == [c]
    case Any => |w| == 1
    case Then(a, b) => exists k :: 0 <= k <= |w| && In(a, w[..k]) && In(b, w[k..])
    case Star(a) => w == "" || exists k :: 0 < k <= |w| && In(a, w[..k]) && In(r, w[k..])
  }

  function One(c: char): (r: Regex) {
    if c == '.' then Any else Sym(c)
  }

  // A pattern after the '^' that may start it. A '*' binds to the character before
  // it, whatever that is, and '$' is special only as the last character.
  function Compile(re: string): (p: Pattern) {
    if re == "" then Pattern(Empty, false)
    else if |re| > 1 && re[1] == '*' then Before(Star(One(re[0])), Compile(re[2..]))
    else if re == "$" then Pattern(Empty, true)
    else Before(One(re[0]), Compile(re[1..]))
  }

  function Before(r: Regex, p: Pattern): (q: Pattern) {
    p.(body := Then(r, p.body))
  }

  // A match at the beginning of t.
  ghost predicate Here(re: string, t: string) {
    exists j :: 0 <= j <= |t| && HereTo(re, t, j)
  }

  ghost predicate HereTo(re: string, t: string, j: nat)
    requires j <= |t|
  {
    In(Compile(re).body, t[..j]) && (Compile(re).toEnd ==> j == |t|)
  }

  // A match anywhere in t, or at its beginning for a pattern with '^'.
  ghost predicate Found(re: string, t: string) {
    if re != "" && re[0] == '^' then Here(re[1..], t)
    else exists i :: 0 <= i <= |t| && Here(re, t[i..])
  }

  // Strings end at their first NUL.
  predicate CString(s: string) {
    forall i :: 0 <= i < |s| ==> s[i] != '\0'
  }

  // What a pointer to position i of s reads.
  function At(s: string, i: nat): (r: char) {
    if i < |s| then s[i] else '\0'
  }

  predicate Fits(c: char, x: char) {
    c == '.' || c == x
  }

  lemma InOne(c: char, w: string)
    ensures In(One(c), w) <==> |w| == 1 && Fits(c, w[0])
  {
  }

  // The first character of a pattern takes the first character of the text.
  lemma HereOne(re: string, t: string)
    requires re != "" && !(|re| > 1 && re[1] == '*') && re != "$"
    ensures Here(re, t) <==> t != "" && Fits(re[0], t[0]) && Here(re[1..], t[1..])
  {
    var r := Compile(re[1..]).body;
    if Here(re, t) {
      var j :| 0 <= j <= |t| && HereTo(re, t, j);
      var k :| 0 <= k <= |t[..j]| && In(One(re[0]), t[..j][..k]) && In(r, t[..j][k..]);
      InOne(re[0], t[..j][..k]);
      assert t[..j][1..] == t[1..][..j - 1];
      assert HereTo(re[1..], t[1..], j - 1);
    }
    if t != "" && Fits(re[0], t[0]) && Here(re[1..], t[1..]) {
      var j :| 0 <= j <= |t[1..]| && HereTo(re[1..], t[1..], j);
      var w := t[..j + 1];
      InOne(re[0], w[..1]);
      assert w[1..] == t[1..][..j];
      assert HereTo(re, t, j + 1);
    }
  }

  ghost predicate AllFit(c: char, w: string) {
    forall i :: 0 <= i < |w| ==> Fits(c, w[i])
  }

  lemma {:induction false} InStar(c: char, w: string)
    ensures In(Star(One(c)), w) <==> AllFit(c, w)
    decreases |w|
  {
    if w != "" {
      if In(Star(One(c)), w) {
        var k :| 0 < k <= |w| && In(One(c), w[..k]) && In(Star(One(c)), w[k..]);
        InOne(c, w[..k]);
        InStar(c, w[1..]);
        assert w == [w[0]] + w[1..];
      }
      if AllFit(c, w) {
        InOne(c, w[..1]);
        InStar(c, w[1..]);
      }
    }
  }

  // A starred character takes some run of fitting characters.
  ghost predicate HereAfter(c: char, re: string, t: string) {
    exists k :: 0 <= k <= |t| && AllFit(c, t[..k]) && Here(re, t[k..])
  }

  lemma HereStar(re: string, t: string)
    requires |re| > 1 && re[1] == '*'
    ensures Here(re, t) <==> HereAfter(re[0], re[2..], t)
  {
    var r := Compile(re[2..]).body;
    if Here(re, t) {
      var j :| 0 <= j <= |t| && HereTo(re, t, j);
      var w := t[..j];
      var k :| 0 <= k <= |w| && In(Star(One(re[0])), w[..k]) && In(r, w[k..]);
      InStar(re[0], w[..k]);
      assert w[..k] == t[..k] && w[k..] == t[k..][..j - k];
      assert HereTo(re[2..], t[k..], j - k);
    }
    if HereAfter(re[0], re[2..], t) {
      var k :| 0 <= k <= |t| && AllFit(re[0], t[..k]) && Here(re[2..], t[k..]);
      var j :| 0 <= j <= |t[k..]| && HereTo(re[2..], t[k..], j);
      var w := t[..k + j];
      assert w[..k] == t[..k] && w[k..] == t[k..][..j];
      InStar(re[0], w[..k]);
      assert HereTo(re, t, k + j);
    }
  }

  lemma HereEmpty(t: string)
    ensures Here("", t) && (Here("$", t) <==> t == "")
  {
    assert HereTo("", t, 0);
    if t == "" {
      assert HereTo("$", t, 0);
    }
  }

  // The methods take pointers: a string and a position in it.

  // match()
  method Match(re: string, text: string) returns (found: bool)
    requires CString(re) && CString(text)
    ensures found <==> Found(re, text)
  {
    assert re[0..] == re && text[0..] == text;
    if At(re, 0) == '^' {
      found := MatchHere(re, 1, text, 0);
      return;
    }
    var q := 0;
    while true
      invariant 0 <= q <= |text| && forall i :: 0 <= i < q ==> !Here(re, text[i..])
      decreases |text| - q
    {
      var here := MatchHere(re, 0, text, q);
      if here {
        return true;
      }
      if At(text, q) == '\0' {
        break;
      }
      q := q + 1;
    }
    found := false;
  }

  // matchhere()
  method MatchHere(re: string, p: nat, text: string, q: nat) returns (found: bool)
    requires CString(re) && CString(text) && p <= |re| && q <= |text|
    ensures found <==> Here(re[p..], text[q..])
    decreases |re| - p, 1
  {
    if At(re, p) == '\0' {
      HereEmpty(text[q..]);
      return true;
    }
    if At(re, p + 1) == '*' {
      HereStar(re[p..], text[q..]);
      assert re[p..][2..] == re[p + 2..];
      found := MatchStar(At(re, p), re, p + 2, text, q);
      return;
    }
    if At(re, p) == '$' && At(re, p + 1) == '\0' {
      assert re[p..] == "$";
      HereEmpty(text[q..]);
      return At(text, q) == '\0';
    }
    HereOne(re[p..], text[q..]);
    if At(text, q) != '\0' && (At(re, p) == '.' || At(re, p) == At(text, q)) {
      assert re[p..][1..] == re[p + 1..] && text[q..][1..] == text[q + 1..];
      found := MatchHere(re, p + 1, text, q + 1);
      return;
    }
    return false;
  }

  // matchstar()
  method MatchStar(c: char, re: string, p: nat, text: string, q: nat) returns (found: bool)
    requires CString(re) && CString(text) && p <= |re| && q <= |text|
    ensures found <==> HereAfter(c, re[p..], text[q..])
    decreases |re| - p, 2
  {
    var t := text[q..];
    var k := 0;
    while true
      invariant 0 <= k <= |t| && AllFit(c, t[..k])
      invariant forall i :: 0 <= i < k ==> !Here(re[p..], t[i..])
      decreases |t| - k
    {
      var here := MatchHere(re, p, text, q + k);
      assert text[q + k..] == t[k..];
      if here {
        return true;
      }
      if At(text, q + k) == '\0' || !(At(text, q + k) == c || c == '.') {
        break;
      }
      assert t[..k + 1] == t[..k] + [t[k]];
      k := k + 1;
    }
    found := false;
  }
}
