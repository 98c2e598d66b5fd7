/**
  Removal of `*...*` asides from a character reply: the substitution of
  every match of the non-greedy pattern `\*.*?\*` by the empty string,
  followed by `str.strip()`. The scan is leftmost; a match starts at an
  asterisk and ends at the first later asterisk, and `.` does not match a
  newline, so an asterisk with a newline before the next asterisk does not
  start a match and is kept.
 */
module Helpers {
  import opened Wrappers
  import opened Text

  /**
    Where the match opened by an asterisk just before `t` closes: the index
    in `t` of the first asterisk, provided no newline comes before it.
   */
  function Closing(t: string): (r: Option<nat>)
    ensures r.Some? ==> r.value < |t| && t[r.value] == '*'
    ensures r.Some? ==> '*' !in t[..r.value] && '\n' !in t[..r.value]
    ensures r.None? ==> forall m :: 0 <= m < |t| && t[m] == '*' ==> '\n' in t[..m]
  {
    if t == [] then None
    else if t[0] == '*' then Some(0)
    else if t[0] == '\n' then None
    else
      match Closing(t[1..])
      case Some(j) =>
        assert t[1..][..j] == t[1..j + 1];
        Some(j + 1)
      case None =>
        assert forall m :: 1 <= m < |t| ==> t[1..][..m - 1] == t[1..m];
        None
  }

  /** `re.sub(r"\*.*?\*", "", s)`. */
  function Scrub(s: string): (r: string)
    ensures |r| <= |s|
    decreases |s|
  {
    if s == [] then ""
    else if s[0] == '*' then
      match Closing(s[1..])
      case Some(j) => Scrub(s[j + 2..])
      case None => "*" + Scrub(s[1..])
    else [s[0]] + Scrub(s[1..])
  }

  /** `remove_asterisk_content`: the substitution, then the strip. */
  function RemoveAsteriskContent(text: string): string {
    Strip(Scrub(text))
  }

  /** No two asterisks of `s` lie on one line. */
  predicate NoPairOnALine(s: string) {
    forall i, j :: 0 <= i < j < |s| && s[i] == '*' && s[j] == '*' ==> '\n' in s[i + 1..j]
  }

  /**
    `AsteriskRemovalParser.parse`: the base string parser passes the text
    through, and the asides are removed from it. Whatever the model replied,
    the result has whitespace at neither end, is no longer than the reply,
    and keeps no two asterisks on one line.
   */
  function ParseReply(text: string): (r: string)
    ensures r == RemoveAsteriskContent(text)
    ensures |r| <= |text|
    ensures r != [] ==> !IsSpace(r[0]) && !IsSpace(r[|r| - 1])
    ensures NoPairOnALine(r)
  {
    ScrubNoPairOnALine(text);
    StripKeepsNoPair(Scrub(text));
    RemoveAsteriskContent(text)
  }

  /** A text without asterisks passes the substitution unchanged. */
  lemma {:induction false} ScrubStarFree(s: string)
    requires '*' !in s
    ensures Scrub(s) == s
    decreases |s|
  {
    if s != [] {
      assert s[0] != '*' && '*' !in s[1..];
      ScrubStarFree(s[1..]);
    }
  }

  /** Text containing no asterisk is only stripped. */
  lemma NoStarOnlyStrips(text: string)
    requires '*' !in text
    ensures RemoveAsteriskContent(text) == Strip(text)
  {
    ScrubStarFree(text);
  }

  /** An asterisk-free head passes through the substitution unchanged. */
  lemma {:induction false} ScrubStarFreeHead(u: string, w: string)
    requires '*' !in u
    ensures Scrub(u + w) == u + Scrub(w)
    decreases |u|
  {
    if u != [] {
      assert (u + w)[0] == u[0] && (u + w)[1..] == u[1..] + w;
      assert '*' !in u[1..];
      assert Scrub(u + w) == [u[0]] + Scrub(u[1..] + w);
      ScrubStarFreeHead(u[1..], w);
      assert u == [u[0]] + u[1..];
      assert [u[0]] + (u[1..] + Scrub(w)) == u + Scrub(w);
    } else {
      assert u + w == w;
    }
  }

  /**
    The leftmost pair is deleted with its asterisks: after an asterisk-free
    head `u`, an asterisk, a stretch `v` with neither asterisk nor newline,
    and a second asterisk, the scan carries on with the remainder `w`.
   */
  lemma RemovesLeftmostPair(u: string, v: string, w: string)
    requires '*' !in u && '*' !in v && '\n' !in v
    ensures Scrub(u + "*" + v + "*" + w) == u + Scrub(w)
  {
    var rest := "*" + v + "*" + w;
    assert u + "*" + v + "*" + w == u + rest;
    ScrubStarFreeHead(u, rest);
    ClosingOfStarFree(v, "*" + w);
    assert rest[1..] == v + ("*" + w);
    assert rest[|v| + 2..] == w;
  }

  /** A stretch without asterisk or newline is scanned over to the next asterisk. */
  lemma {:induction false} ClosingOfStarFree(v: string, w: string)
    requires '*' !in v && '\n' !in v
    requires w != [] && w[0] == '*'
    ensures Closing(v + w) == Some(|v|)
    decreases |v|
  {
    if v != [] {
      assert (v + w)[0] == v[0] && (v + w)[1..] == v[1..] + w;
      assert '*' !in v[1..] && '\n' !in v[1..];
      ClosingOfStarFree(v[1..], w);
    } else {
      assert v + w == w;
    }
  }

  /**
    Asterisks separated by a newline are not paired: an asterisk followed by
    an asterisk-free stretch and a newline is kept, and so is that stretch.
   */
  lemma NewlineBreaksPair(v: string, w: string)
    requires '*' !in v
    ensures Scrub("*" + v + "\n" + w) == "*" + v + "\n" + Scrub(w)
  {
    var s := "*" + v + "\n" + w;
    assert s[1..] == v + ("\n" + w);
    ClosingStopsAtNewline(v, "\n" + w);
    ScrubStarFreeHead(v + "\n", w);
    assert s[1..] == (v + "\n") + w;
  }

  /** A newline reached before any asterisk closes nothing. */
  lemma {:induction false} ClosingStopsAtNewline(v: string, w: string)
    requires '*' !in v
    requires w != [] && w[0] == '\n'
    ensures Closing(v + w) == None
    decreases |v|
  {
    if v != [] {
      assert (v + w)[0] == v[0] && (v + w)[1..] == v[1..] + w;
      assert '*' !in v[1..];
      if v[0] != '\n' {
        ClosingStopsAtNewline(v[1..], w);
      }
    } else {
      assert v + w == w;
    }
  }

  /**
    An unpaired asterisk survives: with no other asterisk in the text (as in
    `"a*b"`) and no whitespace at the ends, the text comes back as it was.
   */
  lemma UnpairedStarSurvives(u: string, w: string)
    requires '*' !in u && '*' !in w
    requires !IsSpace((u + "*" + w)[0]) && !IsSpace((u + "*" + w)[|u + "*" + w| - 1])
    ensures RemoveAsteriskContent(u + "*" + w) == u + "*" + w
  {
    assert u + "*" + w == u + ("*" + w);
    ScrubStarFreeHead(u, "*" + w);
    assert ("*" + w)[1..] == w;
    ScrubStarFree(w);
    StripUnchanged(u + "*" + w);
  }

  /**
    An aside at the start is removed, and the whitespace it leaves behind
    goes with the strip: `"*waves* Hello!"` becomes `"Hello!"`.
   */
  lemma LeadingAsideRemoved(v: string, w: string)
    requires '*' !in v && '\n' !in v && '*' !in w
    ensures RemoveAsteriskContent("*" + v + "*" + w) == Strip(w)
  {
    RemovesLeftmostPair("", v, w);
    assert "" + "*" + v + "*" + w == "*" + v + "*" + w;
    ScrubStarFree(w);
  }

  /** The substitution keeps an open line open: no closing asterisk appears. */
  lemma {:induction false} ScrubKeepsLineOpen(t: string)
    requires Closing(t).None?
    ensures Closing(Scrub(t)).None?
    decreases |t|
  {
    if t != [] && t[0] != '\n' {
      assert t[0] != '*';
      ScrubKeepsLineOpen(t[1..]);
      assert Scrub(t) == [t[0]] + Scrub(t[1..]);
      assert ([t[0]] + Scrub(t[1..]))[1..] == Scrub(t[1..]);
    }
  }

  lemma ConsNoPair(c: char, x: string)
    requires c != '*' && NoPairOnALine(x)
    ensures NoPairOnALine([c] + x)
  {
    var s := [c] + x;
    forall i, j | 0 <= i < j < |s| && s[i] == '*' && s[j] == '*'
      ensures '\n' in s[i + 1..j]
    {
      assert s[i + 1..j] == x[i..j - 1];
    }
  }

  lemma StarConsNoPair(x: string)
    requires NoPairOnALine(x) && Closing(x).None?
    ensures NoPairOnALine("*" + x)
  {
    var s := "*" + x;
    forall i, j | 0 <= i < j < |s| && s[i] == '*' && s[j] == '*'
      ensures '\n' in s[i + 1..j]
    {
      if i == 0 {
        assert x[j - 1] == '*';
        assert s[1..j] == x[..j - 1];
      } else {
        assert s[i + 1..j] == x[i..j - 1];
      }
    }
  }

  /** After the substitution, no line holds two asterisks. */
  lemma {:induction false} ScrubNoPairOnALine(s: string)
    ensures NoPairOnALine(Scrub(s))
    decreases |s|
  {
    if s != [] {
      if s[0] == '*' {
        match Closing(s[1..])
        case Some(j) =>
          ScrubNoPairOnALine(s[j + 2..]);
        case None =>
          ScrubNoPairOnALine(s[1..]);
          ScrubKeepsLineOpen(s[1..]);
          StarConsNoPair(Scrub(s[1..]));
      } else {
        ScrubNoPairOnALine(s[1..]);
        ConsNoPair(s[0], Scrub(s[1..]));
      }
    }
  }

  /** Taking a slice cannot bring two asterisks onto one line. */
  lemma SliceKeepsNoPair(s: string, a: nat, b: nat)
    requires a <= b <= |s| && NoPairOnALine(s)
    ensures NoPairOnALine(s[a..b])
  {
    var r := s[a..b];
    forall i, j | 0 <= i < j < |r| && r[i] == '*' && r[j] == '*'
      ensures '\n' in r[i + 1..j]
    {
      assert r[i] == s[a + i] && r[j] == s[a + j];
      var x, y := r[i + 1..j], s[a + i + 1..a + j];
      forall k | 0 <= k < |x|
        ensures x[k] == y[k]
      {
      }
      assert x == y;
    }
  }

  lemma StripKeepsNoPair(s: string)
    requires NoPairOnALine(s)
    ensures NoPairOnALine(Strip(s))
  {
    SliceKeepsNoPair(s, StripStart(s), StripEnd(s));
  }
}
