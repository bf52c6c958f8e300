/**
 * The client's string helpers: truncating text, initials of a name, the
 * "days ago" label and the token-expiry test. The clock and token decoding
 * are parameters.
 */
module Helpers {
  import opened Wrappers
  import opened Text
  import opened Jwt

  const Ellipsis: string := "..."

  /** `truncateText`: text longer than `length` keeps its first `length` characters and gains "...". */
  function TruncateText(text: string, length: nat): (r: string)
    ensures |text| <= length ==> r == text
    ensures |text| > length ==> |r| == length + 3 && r[..length] == text[..length] && r[length..] == Ellipsis
  {
    if |text| > length then text[..length] + Ellipsis else text
  }

  /**
   * Truncating twice is truncating once; the result is never longer than
   * `length + 3` and never longer than the text by more than two characters.
   */
  lemma TruncateIdempotent(text: string, length: nat)
    ensures TruncateText(TruncateText(text, length), length) == TruncateText(text, length)
    ensures |TruncateText(text, length)| <= length + 3
    ensures |TruncateText(text, length)| <= |text| + 2
  {
    var r := TruncateText(text, length);
    if |text| > length {
      assert r[..length] + Ellipsis == r;
    }
  }

  /** `.map(n => n[0]).join('')`: the first character of every non-empty word. */
  function FirstChars(words: seq<string>): (r: string)
    ensures |r| <= |words|
  {
    if words == [] then []
    else
      var last := words[|words| - 1];
      FirstChars(words[..|words| - 1]) + (if last == [] then [] else [last[0]])
  }

  /** `getInitials`: the first letters of the space-separated words, upper-cased. */
  function GetInitials(name: string): (r: string)
    ensures |r| <= |Split(name, ' ')|
  {
    Upper(FirstChars(Split(name, ' ')))
  }

  /** Whether a word begins at position `i`: a non-space with a space or nothing before it. */
  predicate WordStart(s: string, i: nat)
    requires i < |s|
  {
    s[i] != ' ' && (i == 0 || s[i - 1] == ' ')
  }

  /** The characters of `s` that begin a word, read left to right. */
  function WordStarts(s: string): string {
    if s == [] then []
    else WordStarts(s[..|s| - 1]) + (if WordStart(s, |s| - 1) then [s[|s| - 1]] else [])
  }

  /** The last part of a split is empty exactly when the string is empty or ends with the separator. */
  lemma {:induction false} SplitLastEmpty(s: string, sep: char)
    ensures var p := Split(s, sep);
      p[|p| - 1] == [] <==> s == [] || s[|s| - 1] == sep
  {
  }

  lemma {:induction false} FirstCharsAreWordStarts(s: string)
    ensures FirstChars(Split(s, ' ')) == WordStarts(s)
  {
    if s != [] {
      var init := s[..|s| - 1];
      var c := s[|s| - 1];
      var p := Split(init, ' ');
      FirstCharsAreWordStarts(init);
      SplitLastEmpty(init, ' ');
      if c == ' ' {
        var q := p + [[]];
        assert q[..|q| - 1] == p;
      } else {
        var q := p[..|p| - 1] + [p[|p| - 1] + [c]];
        assert q[..|q| - 1] == p[..|p| - 1];
        assert p == p[..|p| - 1] + [p[|p| - 1]];
        assert FirstChars(p) == FirstChars(p[..|p| - 1]) + (if p[|p| - 1] == [] then [] else [p[|p| - 1][0]]);
      }
    }
  }

  /**
   * The initials are the upper-cased characters that begin a word, in order:
   * runs of spaces contribute nothing.
   */
  lemma InitialsAreWordStarts(name: string)
    ensures GetInitials(name) == Upper(WordStarts(name))
    ensures |GetInitials(name)| <= |name|
  {
    FirstCharsAreWordStarts(name);
    WordStartsLength(name);
  }

  lemma {:induction false} WordStartsLength(s: string)
    ensures |WordStarts(s)| <= |s|
  {
    if s != [] {
      WordStartsLength(s[..|s| - 1]);
    }
  }

  const DayMs: int := 1000 * 60 * 60 * 24

  /** The label `calculateDaysAgo` shows; `Ago(n)` reads "n days ago". */
  datatype DaysLabel = Today | Yesterday | Ago(days: int)

  /** `calculateDaysAgo` for the elapsed milliseconds `now - date`, rounded down to whole days. */
  function DaysAgo(elapsedMs: int): (r: DaysLabel)
    ensures r == Today <==> 0 <= elapsedMs < DayMs
    ensures r == Yesterday <==> DayMs <= elapsedMs < 2 * DayMs
    ensures r.Ago? ==> r.days != 0 && r.days != 1 && r.days * DayMs <= elapsedMs < (r.days + 1) * DayMs
  {
    var days := elapsedMs / DayMs;
    if days == 0 then Today else if days == 1 then Yesterday else Ago(days)
  }

  /**
   * `isTokenExpired` at `nowMs`: a token that does not decode is expired; one
   * with an expiry is expired once the expiry, in seconds, lies before now;
   * one without an expiry never expires.
   */
  function IsTokenExpired(token: string, decode: string -> Option<Claims>, nowMs: int): (r: bool)
    ensures decode(token).None? ==> r
    ensures decode(token).Some? && decode(token).value.exp.None? ==> !r
    ensures decode(token).Some? && decode(token).value.exp.Some? ==>
              (r <==> decode(token).value.exp.value * 1000 < nowMs)
  {
    var decoded := decode(token);
    decoded.None? || (decoded.value.exp.Some? && decoded.value.exp.value * 1000 < nowMs)
  }

  /** Once expired, a token stays expired. */
  lemma ExpiryIsPermanent(token: string, decode: string -> Option<Claims>, t: int, t': int)
    requires t <= t' && IsTokenExpired(token, decode, t)
    ensures IsTokenExpired(token, decode, t')
  {
  }
}
