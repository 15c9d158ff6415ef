/**
 * Search-as-you-type on the home page: the debounce gate of
 * `handleSearchInput`, the empty-term guard of `searchSchool`, and the Enter
 * key shortcut (script.js:151-170, 228-283).
 *
 * The 300 ms timer is an abstract event (`TimerFires`); the request itself,
 * its response and the rendering of results are outside the model, so a
 * search is recorded as the term it sends to `GET /escolas?q=`.
 */
module LiveSearch {
  import opened Wrappers

  /** The characters `String.prototype.trim` strips: ECMAScript WhiteSpace and LineTerminator. */
  predicate IsWhitespace(c: char) {
    || c == ' ' || c == '\t' || c == '\n' || c == '\r'
    || c == '\U{000B}' || c == '\U{000C}' || c == '\U{00A0}' || c == '\U{1680}'
    || ('\U{2000}' <= c <= '\U{200A}')
    || c == '\U{2028}' || c == '\U{2029}' || c == '\U{202F}' || c == '\U{205F}'
    || c == '\U{3000}' || c == '\U{FEFF}'
  }

  predicate IsBlank(s: string) {
    forall k :: 0 <= k < |s| ==> IsWhitespace(s[k])
  }

  /** `s` without its leading whitespace. */
  function TrimStart(s: string): string {
    if s != [] && IsWhitespace(s[0]) then TrimStart(s[1..]) else s
  }

  /** `s` without its trailing whitespace. */
  function TrimEnd(s: string): string {
    if s != [] && IsWhitespace(s[|s| - 1]) then TrimEnd(s[..|s| - 1]) else s
  }

  /** Only leading whitespace is cut: what remains is a suffix of `s` that starts with a non-blank character, if any. */
  lemma {:induction false} TrimStartSpec(s: string)
    ensures |TrimStart(s)| <= |s| && TrimStart(s) == s[|s| - |TrimStart(s)|..]
    ensures IsBlank(s[..|s| - |TrimStart(s)|])
    ensures TrimStart(s) == [] || !IsWhitespace(TrimStart(s)[0])
  {
    if s != [] && IsWhitespace(s[0]) {
      TrimStartSpec(s[1..]);
      var r := TrimStart(s);
      assert s[..|s| - |r|] == [s[0]] + s[1..][..|s| - 1 - |r|];
    }
  }

  /** Only trailing whitespace is cut: what remains is a prefix of `s` that ends with a non-blank character, if any. */
  lemma {:induction false} TrimEndSpec(s: string)
    ensures |TrimEnd(s)| <= |s| && TrimEnd(s) == s[..|TrimEnd(s)|]
    ensures IsBlank(s[|TrimEnd(s)|..])
    ensures TrimEnd(s) == [] || !IsWhitespace(TrimEnd(s)[|TrimEnd(s)| - 1])
  {
    if s != [] && IsWhitespace(s[|s| - 1]) {
      TrimEndSpec(s[..|s| - 1]);
      var r := TrimEnd(s);
      assert s[|r|..] == s[..|s| - 1][|r|..] + [s[|s| - 1]];
    }
  }

  /** `String.prototype.trim`: no longer than the input, and neither end of a non-empty result is whitespace. */
  function Trim(s: string): (r: string)
    ensures |r| <= |s|
    ensures r == [] || (!IsWhitespace(r[0]) && !IsWhitespace(r[|r| - 1]))
  {
    TrimStartSpec(s);
    TrimEndSpec(TrimStart(s));
    TrimEnd(TrimStart(s))
  }

  /** The trimmed term is the middle of the input, with only whitespace cut from either side, and neither of its ends is whitespace. */
  lemma TrimIsMiddle(s: string) returns (i: nat, j: nat)
    ensures i <= j <= |s| && Trim(s) == s[i..j]
    ensures IsBlank(s[..i]) && IsBlank(s[j..])
    ensures Trim(s) == [] || (!IsWhitespace(Trim(s)[0]) && !IsWhitespace(Trim(s)[|Trim(s)| - 1]))
  {
    var t := TrimStart(s);
    var r := TrimEnd(t);
    TrimStartSpec(s);
    TrimEndSpec(t);
    i := |s| - |t|;
    j := i + |r|;
    assert s[i..j] == t[..|r|];
    assert s[j..] == t[|r|..];
  }

  /** A term trims to nothing exactly when it is all whitespace. */
  lemma TrimEmptyIffBlank(s: string)
    ensures Trim(s) == [] <==> IsBlank(s)
  {
    var t := TrimStart(s);
    TrimStartSpec(s);
    TrimEndSpec(t);
    assert s == s[..|s| - |t|] + t;
  }

  /** Trimming a trimmed term changes nothing. */
  lemma TrimIdempotent(s: string)
    ensures Trim(Trim(s)) == Trim(s)
  {
    var r := Trim(s);
    if r != [] {
      var _, _ := TrimIsMiddle(s);
      assert TrimStart(r) == r;
      TrimEndSpec(r);
    }
  }

  /** What the results area (`#escolas-container`) shows, as far as the search logic decides it. */
  datatype Panel = Initial | Placeholder | Searching

  /** Minimum trimmed length, in UTF-16 code units, for a debounced search to be sent. */
  const MinSearchLength: nat := 2

  /** JavaScript's `String.prototype.length`: one code unit per character below U+10000, a surrogate pair (two) for the others. */
  function Utf16Length(s: string): (n: nat)
    ensures |s| <= n <= 2 * |s|
    ensures n == 0 <==> s == []
  {
    if s == [] then 0
    else (if s[0] as int < 0x1_0000 then 1 else 2) + Utf16Length(s[1..])
  }

  /** A single character outside the Basic Multilingual Plane already has length 2, so it passes the two-character gate. */
  lemma AstralCharPassesGate()
    ensures Utf16Length("\U{1F600}") == MinSearchLength
    ensures Utf16Length("a") < MinSearchLength
  {
    assert "\U{1F600}"[1..] == [];
    assert "a"[1..] == [];
  }

  class SearchBox {
    /** `searchInput.value`. */
    var value: string
    /** The pending `searchTimeout`: the trimmed term its callback captured, if a timer is scheduled. */
    var pending: Option<string>
    var panel: Panel
    /** The terms sent to `GET /escolas?q=`, oldest first. */
    var requests: seq<string>

    /** A scheduled search holds the current trimmed input, which is never empty; every term sent is non-empty and trimmed. */
    ghost predicate Valid()
      reads this
    {
      && (pending.Some? ==> pending.value == Trim(value) && pending.value != [])
      && (forall k :: 0 <= k < |requests| ==> requests[k] != [] && Trim(requests[k]) == requests[k])
    }

    constructor ()
      ensures Valid() && value == [] && pending == None && panel == Initial && requests == []
    {
      value, pending, panel, requests := [], None, Initial, [];
    }

    /** `searchSchool`: shows the "searching" message, then either the placeholder (empty term) or sends the trimmed term. */
    method SearchSchool()
      requires Valid()
      modifies this`panel, this`requests
      ensures Valid()
      ensures Trim(value) == [] ==> panel == Placeholder && requests == old(requests)
      ensures Trim(value) != [] ==> panel == Searching && requests == old(requests) + [Trim(value)]
    {
      var term := Trim(value);
      panel := Searching;
      if term == [] {
        panel := Placeholder;
        return;
      }
      TrimIdempotent(value);
      requests := requests + [term];
    }

    /** `handleSearchInput` after the user has typed `newValue`: cancel the pending search, then show the placeholder or schedule a search. */
    method Input(newValue: string)
      requires Valid()
      modifies this
      ensures Valid()
      ensures value == newValue && requests == old(requests)
      ensures Trim(newValue) == [] ==> pending == None && panel == Placeholder
      ensures Trim(newValue) != [] ==> pending == Some(Trim(newValue)) && panel == old(panel)
    {
      value := newValue;
      pending := None;
      var term := Trim(value);
      if term == [] {
        panel := Placeholder;
        return;
      }
      pending := Some(term);
    }

    /** The 300 ms timer runs out: a scheduled callback searches only when its term has at least two characters. */
    method TimerFires()
      requires Valid()
      modifies this
      ensures Valid()
      ensures value == old(value) && pending == None
      ensures old(pending).Some? && Utf16Length(old(pending).value) >= MinSearchLength
              ==> requests == old(requests) + [old(pending).value] && panel == Searching
      ensures !(old(pending).Some? && Utf16Length(old(pending).value) >= MinSearchLength)
              ==> requests == old(requests) && panel == old(panel)
    {
      if pending.None? {
        return;
      }
      var term := pending.value;
      pending := None;
      if Utf16Length(term) >= MinSearchLength {
        SearchSchool();
      }
    }

    /** `handleSearchKeyPress`: Enter searches at once, whatever the length of the term. */
    method KeyPress(key: string)
      requires Valid()
      modifies this
      ensures Valid()
      ensures value == old(value) && pending == old(pending)
      ensures key != "Enter" ==> requests == old(requests) && panel == old(panel)
      ensures key == "Enter" && Trim(value) != [] ==> requests == old(requests) + [Trim(value)] && panel == Searching
      ensures key == "Enter" && Trim(value) == [] ==> requests == old(requests) && panel == Placeholder
    {
      if key == "Enter" {
        SearchSchool();
      }
    }
  }

  /** Typing a term and waiting sends it when it is at least two characters long after trimming, and sends nothing otherwise. */
  method TypeAndWait(box: SearchBox, typed: string)
    requires box.Valid()
    modifies box
    ensures box.Valid()
    ensures Utf16Length(Trim(typed)) >= MinSearchLength ==> box.requests == old(box.requests) + [Trim(typed)]
    ensures Utf16Length(Trim(typed)) < MinSearchLength ==> box.requests == old(box.requests)
  {
    box.Input(typed);
    box.TimerFires();
  }
}
