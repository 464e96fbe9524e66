/** String operations of Python and JavaScript that the models share. */
module Text {
  /** Characters removed by Python's str.strip(). */
  predicate IsPySpace(c: char) {
    || '\U{9}' <= c <= '\U{D}' || '\U{1C}' <= c <= ' '
    || c == '\U{85}' || c == '\U{A0}' || c == '\U{1680}' || '\U{2000}' <= c <= '\U{200A}'
    || c == '\U{2028}' || c == '\U{2029}' || c == '\U{202F}' || c == '\U{205F}' || c == '\U{3000}'
  }

  /** Characters removed by JavaScript's String.trim(). */
  predicate IsJsSpace(c: char) {
    || '\U{9}' <= c <= '\U{D}' || c == ' ' || c == '\U{A0}' || c == '\U{1680}'
    || '\U{2000}' <= c <= '\U{200A}' || c == '\U{2028}' || c == '\U{2029}' || c == '\U{202F}'
    || c == '\U{205F}' || c == '\U{3000}' || c == '\U{FEFF}'
  }

  /** The 29 characters that Python and the 25 that JavaScript count as white space. */
  lemma SpacesExactly(c: char)
    ensures IsPySpace(c) <==>
              c in "\t\n\U{B}\U{C}\r\U{1C}\U{1D}\U{1E}\U{1F} \U{85}\U{A0}\U{1680}"
                 + "\U{2028}\U{2029}\U{202F}\U{205F}\U{3000}"
                 + "\U{2000}\U{2001}\U{2002}\U{2003}\U{2004}\U{2005}\U{2006}\U{2007}\U{2008}\U{2009}\U{200A}"
    ensures IsJsSpace(c) <==>
              c in "\t\n\U{B}\U{C}\r \U{A0}\U{1680}\U{2028}\U{2029}\U{202F}\U{205F}\U{3000}\U{FEFF}"
                 + "\U{2000}\U{2001}\U{2002}\U{2003}\U{2004}\U{2005}\U{2006}\U{2007}\U{2008}\U{2009}\U{200A}"
  {
  }

  /** `s` without the leading characters that satisfy `space`. */
  function TrimStart(s: string, space: char -> bool): (r: string)
    ensures |r| <= |s| && r == s[|s| - |r|..]
    ensures r != [] ==> !space(r[0])
    ensures s != [] && !space(s[0]) ==> r == s
  {
    if s != [] && space(s[0]) then TrimStart(s[1..], space) else s
  }

  /** `s` without the trailing characters that satisfy `space`. */
  function TrimEnd(s: string, space: char -> bool): (r: string)
    ensures r <= s
    ensures r != [] ==> !space(r[|r| - 1])
    ensures s != [] && !space(s[|s| - 1]) ==> r == s
  {
    if s != [] && space(s[|s| - 1]) then TrimEnd(s[..|s| - 1], space) else s
  }

  function Trim(s: string, space: char -> bool): (r: string)
    ensures r != [] ==> !space(r[0]) && !space(r[|r| - 1])
  {
    TrimEnd(TrimStart(s, space), space)
  }

  /** Neither end of `s` would be trimmed. */
  predicate Trimmed(s: string, space: char -> bool) {
    s == [] || (!space(s[0]) && !space(s[|s| - 1]))
  }

  lemma TrimmedStays(s: string, space: char -> bool)
    requires Trimmed(s, space)
    ensures Trim(s, space) == s
  {
  }

  /** A text is trimmed away exactly if it is all space. */
  lemma {:induction false} BlankExactly(s: string, space: char -> bool)
    ensures Trim(s, space) == "" <==> forall i | 0 <= i < |s| :: space(s[i])
  {
    if i :| 0 <= i < |s| && !space(s[i]) {
      NotBlank(s, i, space);
    } else {
      AllSpace(s, space);
    }
  }

  lemma {:induction false} AllSpace(s: string, space: char -> bool)
    requires forall i | 0 <= i < |s| :: space(s[i])
    ensures TrimStart(s, space) == ""
  {
    if s != "" {
      AllSpace(s[1..], space);
    }
  }

  /** A character that is not space keeps a text from being trimmed away. */
  lemma {:induction false} NotBlank(s: string, i: nat, space: char -> bool)
    requires i < |s| && !space(s[i])
    ensures Trim(s, space) != ""
  {
    StartKeeps(s, i, space);
    var t := TrimStart(s, space);
    EndKeeps(t, i - (|s| - |t|), space);
  }

  lemma {:induction false} StartKeeps(s: string, i: nat, space: char -> bool)
    requires i < |s| && !space(s[i])
    ensures |s| - |TrimStart(s, space)| <= i
  {
    if space(s[0]) {
      StartKeeps(s[1..], i - 1, space);
    }
  }

  lemma {:induction false} EndKeeps(s: string, i: nat, space: char -> bool)
    requires i < |s| && !space(s[i])
    ensures |TrimEnd(s, space)| > i
  {
    if space(s[|s| - 1]) {
      EndKeeps(s[..|s| - 1], i, space);
    }
  }

  predicate StartsWith(s: string, prefix: string): (b: bool)
    ensures b ==> |prefix| <= |s|
  {
    |prefix| <= |s| && s[..|prefix|] == prefix
  }

  predicate EndsWith(s: string, suffix: string) {
    |suffix| <= |s| && s[|s| - |suffix|..] == suffix
  }

  function Join(parts: seq<string>, sep: string): string {
    if parts == [] then ""
    else if |parts| == 1 then parts[0]
    else parts[0] + sep + Join(parts[1..], sep)
  }

  lemma {:induction false} JoinSnoc(parts: seq<string>, last: string, sep: string)
    requires parts != []
    ensures Join(parts + [last], sep) == Join(parts, sep) + sep + last
  {
    assert (parts + [last])[1..] == parts[1..] + [last];
    if |parts| > 1 {
      JoinSnoc(parts[1..], last, sep);
    }
  }
}
