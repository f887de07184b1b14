/**
 * `Validators`: the length checks on resume and job-description text, and
 * the sanitiser that drops NUL and control characters, collapses long runs
 * of newlines and strips the text.
 */
module Validators {
  import opened Strings

  const MinInputLength := 50
  const MaxResumeLength := 50000
  const MaxJobDescLength := 20000

  /** The messages, with the limits rendered as Python's `{:,}` prints them. */
  const ResumeRequired := "Resume text is required."
  const ResumeTooShort := "Resume must be at least 50 characters."
  const ResumeTooLong := "Resume exceeds maximum length of 50,000 characters."
  const JobRequired := "Job description is required."
  const JobTooShort := "Job description must be at least 50 characters."
  const JobTooLong := "Job description exceeds maximum length of 20,000 characters."

  /** The checks both validators run, in their order: present (not all
      whitespace), at least `MinInputLength` characters once stripped, at
      most `maxLength` characters as given. */
  function Validate(text: string, maxLength: int, required: string, tooShort: string, tooLong: string): (bool, string) {
    if text == [] || Strip(text) == [] then (false, required)
    else if |Strip(text)| < MinInputLength then (false, tooShort)
    else if |text| > maxLength then (false, tooLong)
    else (true, "")
  }

  /** Which check fails first, stated on the text itself. */
  lemma ValidateOrder(text: string, maxLength: int, required: string, tooShort: string, tooLong: string)
    ensures var r := Validate(text, maxLength, required, tooShort, tooLong);
      && ((forall k | 0 <= k < |text| :: IsSpace(text[k])) ==> r == (false, required))
      && (!(forall k | 0 <= k < |text| :: IsSpace(text[k])) && |Strip(text)| < MinInputLength ==> r == (false, tooShort))
      && (|Strip(text)| >= MinInputLength && |text| > maxLength ==> r == (false, tooLong))
      && (r.0 <==> |Strip(text)| >= MinInputLength && |text| <= maxLength)
      && (r.0 ==> r.1 == "")
  {
    StripSpec(text);
  }

  /** `validate_resume(text)`. */
  function ValidateResume(text: string): (r: (bool, string))
    ensures r.0 <==> MinInputLength <= |Strip(text)| && |text| <= MaxResumeLength
    ensures !r.0 ==> r.1 in {ResumeRequired, ResumeTooShort, ResumeTooLong}
  {
    ValidateOrder(text, MaxResumeLength, ResumeRequired, ResumeTooShort, ResumeTooLong);
    Validate(text, MaxResumeLength, ResumeRequired, ResumeTooShort, ResumeTooLong)
  }

  /** `validate_job_description(text)`. */
  function ValidateJobDescription(text: string): (r: (bool, string))
    ensures r.0 <==> MinInputLength <= |Strip(text)| && |text| <= MaxJobDescLength
    ensures !r.0 ==> r.1 in {JobRequired, JobTooShort, JobTooLong}
  {
    ValidateOrder(text, MaxJobDescLength, JobRequired, JobTooShort, JobTooLong);
    Validate(text, MaxJobDescLength, JobRequired, JobTooShort, JobTooLong)
  }

  /** The characters `[\x01-\x08\x0b\x0c\x0e-\x1f\x7f]`: every ASCII
      control except NUL, tab, newline and carriage return. */
  predicate IsControl(c: char) {
    || '\U{01}' <= c <= '\U{08}' || c == '\U{0B}' || c == '\U{0C}'
    || '\U{0E}' <= c <= '\U{1F}' || c == '\U{7F}'
  }

  predicate IsNul(c: char) {
    c == '\U{00}'
  }

  /** The two classes of characters the sanitiser removes. */
  datatype Removed = NulChars | ControlChars

  predicate Drops(cls: Removed, c: char) {
    match cls
    case NulChars => IsNul(c)
    case ControlChars => IsControl(c)
  }

  /** `s` without the characters of class `cls`, in order. */
  function Without(s: string, cls: Removed): (r: string)
    ensures |r| <= |s|
    ensures forall k | 0 <= k < |r| :: !Drops(cls, r[k]) && r[k] in s
  {
    if s == [] then []
    else Without(s[..|s| - 1], cls) + (if Drops(cls, s[|s| - 1]) then [] else [s[|s| - 1]])
  }

  /** A character stays exactly when it is not of the class. */
  lemma {:induction false} WithoutKeeps(s: string, cls: Removed, c: char)
    ensures c in Without(s, cls) <==> c in s && !Drops(cls, c)
  {
    if s != [] {
      var init := s[..|s| - 1];
      WithoutKeeps(init, cls, c);
      assert s == init + [s[|s| - 1]];
    }
  }

  /** A text with nothing of the class is unchanged. */
  lemma {:induction false} WithoutNone(s: string, cls: Removed)
    requires forall k | 0 <= k < |s| :: !Drops(cls, s[k])
    ensures Without(s, cls) == s
  {
    if s != [] {
      var init := s[..|s| - 1];
      forall k | 0 <= k < |init| ensures !Drops(cls, init[k]) {
        assert init[k] == s[k];
      }
      WithoutNone(init, cls);
      assert s == init + [s[|s| - 1]];
    }
  }

  /** Removing characters from a concatenation removes them from each part. */
  lemma {:induction false} WithoutAppend(s: string, t: string, cls: Removed)
    ensures Without(s + t, cls) == Without(s, cls) + Without(t, cls)
  {
    if t == [] {
      assert s + t == s;
    } else {
      var init := t[..|t| - 1];
      WithoutAppend(s, init, cls);
      assert (s + t)[..|s + t| - 1] == s + init;
      assert (s + t)[|s + t| - 1] == t[|t| - 1];
    }
  }

  /** The number of newlines `s` starts with. */
  function NewlineRun(s: string): (n: nat)
    ensures n <= |s|
  {
    if s != [] && s[0] == '\n' then 1 + NewlineRun(s[1..]) else 0
  }

  /** The run is all newlines and is followed by something else. */
  lemma {:induction false} NewlineRunSpec(s: string)
    ensures forall k | 0 <= k < NewlineRun(s) :: s[k] == '\n'
    ensures NewlineRun(s) < |s| ==> s[NewlineRun(s)] != '\n'
  {
    if s != [] && s[0] == '\n' {
      NewlineRunSpec(s[1..]);
    }
  }

  /** The replacement text of the collapse. */
  const ThreeNewlines := "\n\n\n"

  /** `re.sub(r"\n{4,}", "\n\n\n", s)`: every maximal run of four or more
      newlines becomes three. */
  function CollapseNewlines(s: string): string
    decreases |s|
  {
    if s == [] then []
    else if s[0] != '\n' then [s[0]] + CollapseNewlines(s[1..])
    else
      var n := NewlineRun(s);
      (if n >= 4 then ThreeNewlines else s[..n]) + CollapseNewlines(s[n..])
  }

  /** Four newlines start at index `k` of `s`. */
  predicate FourFrom(s: string, k: int) {
    0 <= k && k + 3 < |s| && s[k] == '\n' && s[k + 1] == '\n' && s[k + 2] == '\n' && s[k + 3] == '\n'
  }

  /** No four newlines in a row. */
  ghost predicate NoFourNewlines(s: string) {
    forall k :: !FourFrom(s, k)
  }

  /** The collapse keeps the first character unless it is a newline. */
  lemma CollapseHead(s: string)
    requires s != [] && s[0] != '\n'
    ensures CollapseNewlines(s) != [] && CollapseNewlines(s)[0] == s[0]
  {
  }

  /** Past the end of `head`, four newlines in `head + rest` are four
      newlines in `rest`. */
  lemma FourFromAfter(head: string, rest: string, k: int)
    requires k >= |head|
    ensures FourFrom(head + rest, k) == FourFrom(rest, k - |head|)
  {
    var s := head + rest;
    if k + 3 < |s| {
      assert s[k] == rest[k - |head|] && s[k + 1] == rest[k - |head| + 1];
      assert s[k + 2] == rest[k - |head| + 2] && s[k + 3] == rest[k - |head| + 3];
    }
  }

  /** A run of at most three newlines before text that does not start
      with a newline adds no run of four. */
  lemma RunThenText(run: string, rest: string)
    requires |run| <= 3 && forall k | 0 <= k < |run| :: run[k] == '\n'
    requires NoFourNewlines(rest) && (rest == [] || rest[0] != '\n')
    ensures NoFourNewlines(run + rest)
  {
    var s := run + rest;
    forall k ensures !FourFrom(s, k) {
      if 0 <= k < |run| && k + 3 < |s| {
        assert s[|run|] == rest[0];
      } else if k >= |run| {
        FourFromAfter(run, rest, k);
      }
    }
  }

  /** After the collapse no four newlines follow each other. */
  lemma {:induction false} CollapseNoFour(s: string)
    ensures NoFourNewlines(CollapseNewlines(s))
    decreases |s|
  {
    if s == [] {
    } else if s[0] != '\n' {
      CollapseNoFour(s[1..]);
      var rest := CollapseNewlines(s[1..]);
      forall k ensures !FourFrom([s[0]] + rest, k) {
        if k >= 1 {
          FourFromAfter([s[0]], rest, k);
        }
      }
    } else {
      var n := NewlineRun(s);
      NewlineRunSpec(s);
      var rest := s[n..];
      CollapseNoFour(rest);
      if rest != [] {
        CollapseHead(rest);
      }
      var run := if n >= 4 then ThreeNewlines else s[..n];
      RunThenText(run, CollapseNewlines(rest));
    }
  }

  /** A text with no run of four newlines is left as it is. */
  lemma {:induction false} CollapseKeeps(s: string)
    requires NoFourNewlines(s)
    ensures CollapseNewlines(s) == s
    decreases |s|
  {
    if s != [] {
      var n := if s[0] != '\n' then 1 else NewlineRun(s);
      if s[0] == '\n' {
        NewlineRunSpec(s);
        assert !FourFrom(s, 0);
      }
      SliceNoFour(s, n, |s|);
      assert s[n..|s|] == s[n..];
      CollapseKeeps(s[n..]);
      assert s == s[..n] + s[n..];
    }
  }

  /** A piece of a text without a run of four newlines has none either. */
  lemma SliceNoFour(s: string, i: int, j: int)
    requires NoFourNewlines(s) && 0 <= i <= j <= |s|
    ensures NoFourNewlines(s[i..j])
  {
    var t := s[i..j];
    forall k ensures !FourFrom(t, k) {
      if 0 <= k && k + 3 < |t| {
        assert t[k] == s[i + k] && t[k + 1] == s[i + k + 1];
        assert t[k + 2] == s[i + k + 2] && t[k + 3] == s[i + k + 3];
        assert !FourFrom(s, i + k);
      }
    }
  }

  /** `sanitize_text(text)`: NUL removed, runs of newlines collapsed, the
      remaining control characters removed, then stripped. */
  function Sanitize(text: string): string {
    Strip(Without(CollapseNewlines(Without(text, NulChars)), ControlChars))
  }

  /** The sanitised text has no NUL and no control character, and does not
      start or end with whitespace. */
  lemma SanitizeClean(text: string)
    ensures forall k | 0 <= k < |Sanitize(text)| :: !IsNul(Sanitize(text)[k]) && !IsControl(Sanitize(text)[k])
    ensures Sanitize(text) == [] || (!IsSpace(Sanitize(text)[0]) && !IsSpace(Sanitize(text)[|Sanitize(text)| - 1]))
  {
    var a := Without(text, NulChars);
    var b := CollapseNewlines(a);
    var c := Without(b, ControlChars);
    StripSlice(c);
    StripEdges(c);
    var r := Sanitize(text);
    forall k | 0 <= k < |r| ensures !IsNul(r[k]) && !IsControl(r[k]) {
      var ch := r[k];
      assert ch == c[LeadingSpaces(c) + k];
      if ch != '\n' {
        WithoutKeeps(b, ControlChars, ch);
        CollapseKeepsChars(a, ch);
        WithoutKeeps(text, NulChars, ch);
      }
    }
  }

  /** The collapse removes nothing but newlines. */
  lemma {:induction false} CollapseKeepsChars(s: string, c: char)
    requires c != '\n'
    ensures c in CollapseNewlines(s) <==> c in s
    decreases |s|
  {
    if s != [] {
      if s[0] != '\n' {
        CollapseKeepsChars(s[1..], c);
        assert s == [s[0]] + s[1..];
      } else {
        var n := NewlineRun(s);
        NewlineRunSpec(s);
        CollapseKeepsChars(s[n..], c);
        assert s == s[..n] + s[n..];
        assert c !in s[..n];
      }
    }
  }

  /** A text that is already clean loses only its surrounding whitespace:
      newlines and tabs inside it are kept. */
  lemma SanitizeCleanText(text: string)
    requires forall k | 0 <= k < |text| :: !IsNul(text[k]) && !IsControl(text[k])
    requires NoFourNewlines(text)
    ensures Sanitize(text) == Strip(text)
  {
    WithoutNone(text, NulChars);
    CollapseKeeps(text);
    WithoutNone(text, ControlChars);
  }

  const RunFront: string := "a\n\n"
  const RunBack: string := "\n\nb"
  /** `"a\n\n\x01\n\nb"`: two newlines, a control character and two
      newlines, between letters. */
  const SplitRun: string := RunFront + ['\U{01}'] + RunBack
  /** `"a\n\n\n\nb"`: the same text with the control character gone. */
  const JoinedRun: string := RunFront + RunBack

  lemma SplitRunNoNul()
    ensures Without(SplitRun, NulChars) == SplitRun
  {
    WithoutNone(SplitRun, NulChars);
  }

  lemma SplitRunCollapse()
    ensures CollapseNewlines(SplitRun) == SplitRun
  {
    var s := SplitRun;
    assert NoFourNewlines(s) by {
      forall k ensures !FourFrom(s, k) {
        if 0 <= k && k + 3 < |s| {
          assert s[k] != '\n' || s[k + 1] != '\n' || s[k + 2] != '\n';
        }
      }
    }
    CollapseKeeps(s);
  }

  /** Removing a class from a text in which exactly one character is of
      that class leaves the text on either side of it, joined. */
  lemma DropsOnly(front: string, c: char, back: string, cls: Removed)
    requires forall k | 0 <= k < |front| :: !Drops(cls, front[k])
    requires forall k | 0 <= k < |back| :: !Drops(cls, back[k])
    requires Drops(cls, c)
    ensures Without(front + [c] + back, cls) == front + back
  {
    WithoutAppend(front + [c], back, cls);
    WithoutAppend(front, [c], cls);
    WithoutNone(front, cls);
    WithoutNone(back, cls);
    assert [c][..0] == [];
    assert Without([c], cls) == [];
    assert front + [] == front;
  }

  lemma SplitRunControls()
    ensures Without(SplitRun, ControlChars) == JoinedRun
  {
    assert forall k | 0 <= k < |RunFront| :: RunFront[k] == 'a' || RunFront[k] == '\n';
    assert forall k | 0 <= k < |RunBack| :: RunBack[k] == 'b' || RunBack[k] == '\n';
    DropsOnly(RunFront, '\U{01}', RunBack, ControlChars);
  }

  lemma JoinedRunStrip()
    ensures Strip(JoinedRun) == JoinedRun
  {
    assert LeadingSpaces(JoinedRun) == 0;
    assert TrailingSpaces(JoinedRun) == 0;
  }

  /** Control characters are removed after the collapse, so newlines on
      both sides of one join into a run of four that stays. */
  lemma SanitizeLeavesFourNewlines()
    ensures Sanitize(SplitRun) == JoinedRun
    ensures !NoFourNewlines(Sanitize(SplitRun))
  {
    SplitRunNoNul();
    SplitRunCollapse();
    SplitRunControls();
    JoinedRunStrip();
    assert FourFrom(JoinedRun, 1);
  }

  /** The sanitiser with control characters removed before the collapse. */
  function SanitizeCorrected(text: string): string {
    Strip(CollapseNewlines(Without(Without(text, NulChars), ControlChars)))
  }

  /** The reordered sanitiser guarantees what the collapse is for. */
  lemma SanitizeCorrectedNoFour(text: string)
    ensures NoFourNewlines(SanitizeCorrected(text))
  {
    var b := Without(Without(text, NulChars), ControlChars);
    var c := CollapseNewlines(b);
    CollapseNoFour(b);
    StripSlice(c);
    SliceNoFour(c, LeadingSpaces(c), LeadingSpaces(c) + |Strip(c)|);
  }

  /** The reordered sanitiser keeps the rest of the cleaning. */
  lemma SanitizeCorrectedClean(text: string)
    ensures forall k | 0 <= k < |SanitizeCorrected(text)| ::
      !IsNul(SanitizeCorrected(text)[k]) && !IsControl(SanitizeCorrected(text)[k])
    ensures SanitizeCorrected(text) == [] ||
      (!IsSpace(SanitizeCorrected(text)[0]) && !IsSpace(SanitizeCorrected(text)[|SanitizeCorrected(text)| - 1]))
  {
    var a := Without(text, NulChars);
    var b := Without(a, ControlChars);
    var c := CollapseNewlines(b);
    StripSlice(c);
    StripEdges(c);
    var r := SanitizeCorrected(text);
    forall k | 0 <= k < |r| ensures !IsNul(r[k]) && !IsControl(r[k]) {
      var ch := r[k];
      assert ch == c[LeadingSpaces(c) + k];
      if ch != '\n' {
        CollapseKeepsChars(b, ch);
        WithoutKeeps(a, ControlChars, ch);
        WithoutKeeps(text, NulChars, ch);
      }
    }
  }
}
