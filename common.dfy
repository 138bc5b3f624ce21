/** Values and string operations shared by the generation pages and the chat
    assistant: JavaScript's `String.prototype.trim` and `includes`, the value a
    `catch` clause receives, and the reply of an SDK wrapper call. */
module Common {

  datatype Option<+T> = None | Some(value: T)

  /** JavaScript truthiness of an optional string: `undefined`, `null` and the
      empty string are all falsy. */
  predicate Truthy(s: Option<string>): (b: bool)
    ensures s.None? ==> !b
    ensures s == Some("") ==> !b
    ensures s.Some? && s.value != "" ==> b
  {
    s.Some? && s.value != ""
  }

  /** Characters that JavaScript's `trim` removes: the WhiteSpace and
      LineTerminator productions of ECMAScript (section 12.2 and 12.3 of
      ECMA-262), i.e. tab, vertical tab, form feed, space, no-break space,
      the byte order mark, every space separator (Unicode category Zs) and
      the four line terminators. */
  predicate IsJsWhitespace(c: char) {
    || c == '\t' || c == '\n' || c == '\U{000B}' || c == '\U{000C}' || c == '\r'
    || c == ' ' || c == '\U{00A0}' || c == '\U{1680}'
    || ('\U{2000}' <= c <= '\U{200A}')
    || c == '\U{2028}' || c == '\U{2029}' || c == '\U{202F}' || c == '\U{205F}'
    || c == '\U{3000}' || c == '\U{FEFF}'
  }

  /** Every character of `s` is whitespace (the empty string included). */
  predicate IsBlank(s: string) {
    forall i :: 0 <= i < |s| ==> IsJsWhitespace(s[i])
  }

  /** `s` with its leading whitespace removed: a suffix of `s`. */
  function TrimStart(s: string): (r: string)
    ensures |r| <= |s| && r == s[|s| - |r|..]
    decreases |s|
  {
    if |s| > 0 && IsJsWhitespace(s[0]) then TrimStart(s[1..]) else s
  }

  /** What `TrimStart` drops is whitespace. */
  lemma {:induction false} TrimStartDropsBlank(s: string)
    ensures IsBlank(s[..|s| - |TrimStart(s)|])
    decreases |s|
  {
    var k := |s| - |TrimStart(s)|;
    if |s| > 0 && IsJsWhitespace(s[0]) {
      TrimStartDropsBlank(s[1..]);
      forall i | 0 <= i < k
        ensures IsJsWhitespace(s[..k][i])
      {
        if i > 0 {
          assert s[..k][i] == s[1..][..k - 1][i - 1];
        }
      }
    }
  }

  /** What `TrimStart` keeps does not start with whitespace. */
  lemma {:induction false} TrimStartKeepsNonBlankFirst(s: string)
    ensures TrimStart(s) != [] ==> !IsJsWhitespace(TrimStart(s)[0])
    decreases |s|
  {
    if |s| > 0 && IsJsWhitespace(s[0]) {
      TrimStartKeepsNonBlankFirst(s[1..]);
    }
  }

  /** `TrimStart` keeps nothing exactly when `s` is blank. */
  lemma TrimStartEmpty(s: string)
    ensures TrimStart(s) == [] <==> IsBlank(s)
  {
    var r := TrimStart(s);
    TrimStartDropsBlank(s);
    TrimStartKeepsNonBlankFirst(s);
    if r == [] {
      assert s[..|s| - |r|] == s;
    } else {
      assert r[0] == s[|s| - |r|];
    }
  }

  /** `s` with its trailing whitespace removed: a prefix of `s`. */
  function TrimEnd(s: string): (r: string)
    ensures |r| <= |s| && r == s[..|r|]
    decreases |s|
  {
    if |s| > 0 && IsJsWhitespace(s[|s| - 1]) then TrimEnd(s[..|s| - 1]) else s
  }

  /** What `TrimEnd` drops is whitespace. */
  lemma {:induction false} TrimEndDropsBlank(s: string)
    ensures IsBlank(s[|TrimEnd(s)|..])
    decreases |s|
  {
    var k := |TrimEnd(s)|;
    if |s| > 0 && IsJsWhitespace(s[|s| - 1]) {
      var init := s[..|s| - 1];
      TrimEndDropsBlank(init);
      forall i | 0 <= i < |s| - k
        ensures IsJsWhitespace(s[k..][i])
      {
        if i < |s| - 1 - k {
          assert s[k..][i] == init[k..][i];
        }
      }
    }
  }

  /** What `TrimEnd` keeps does not end with whitespace. */
  lemma {:induction false} TrimEndKeepsNonBlankLast(s: string)
    ensures TrimEnd(s) != [] ==> !IsJsWhitespace(TrimEnd(s)[|TrimEnd(s)| - 1])
    decreases |s|
  {
    if |s| > 0 && IsJsWhitespace(s[|s| - 1]) {
      TrimEndKeepsNonBlankLast(s[..|s| - 1]);
    }
  }

  /** `TrimEnd` keeps nothing exactly when `s` is blank. */
  lemma TrimEndEmpty(s: string)
    ensures TrimEnd(s) == [] <==> IsBlank(s)
  {
    var r := TrimEnd(s);
    TrimEndDropsBlank(s);
    TrimEndKeepsNonBlankLast(s);
    if r == [] {
      assert s[|r|..] == s;
    } else {
      assert r[|r| - 1] == s[|r| - 1];
    }
  }

  /** JavaScript's `s.trim()`. A prompt is rejected exactly when this is
      the empty string, which happens exactly when it is blank. */
  function Trim(s: string): (r: string)
    ensures r == [] <==> IsBlank(s)
    ensures r != [] ==> !IsJsWhitespace(r[0]) && !IsJsWhitespace(r[|r| - 1])
  {
    var start := TrimStart(s);
    TrimStartEmpty(s);
    TrimStartKeepsNonBlankFirst(s);
    TrimEndEmpty(start);
    TrimEndKeepsNonBlankLast(start);
    TrimEndPreservesFirst(start);
    TrimEnd(start)
  }

  /** Trimming the end of a string that does not start with whitespace
      keeps its first character, if it keeps anything. */
  lemma TrimEndPreservesFirst(s: string)
    ensures TrimEnd(s) != [] ==> TrimEnd(s)[0] == s[0]
  {
  }

  /** `sub` occurs in `s` at position `i`. */
  predicate OccursAt(s: string, sub: string, i: int) {
    0 <= i && i + |sub| <= |s| && s[i..i + |sub|] == sub
  }

  /** JavaScript's `s.includes(sub)`: true when `sub` occurs somewhere in `s`
      (the empty string occurs everywhere). */
  function Includes(s: string, sub: string): (b: bool)
    ensures b <==> exists i :: OccursAt(s, sub, i)
    decreases |s|
  {
    if |s| < |sub| then
      false
    else if s[..|sub|] == sub then
      assert OccursAt(s, sub, 0);
      true
    else
      var b := Includes(s[1..], sub);
      assert (exists i :: OccursAt(s[1..], sub, i)) <==> (exists i :: OccursAt(s, sub, i)) by {
        forall i | OccursAt(s[1..], sub, i)
          ensures OccursAt(s, sub, i + 1)
        {
          OccursInTail(s, sub, i);
        }
        forall i | OccursAt(s, sub, i)
          ensures OccursAt(s[1..], sub, i - 1)
        {
          OccursInTail(s, sub, i - 1);
        }
      }
      b
  }

  /** An occurrence in the tail of `s` is an occurrence in `s`, one
      position later. */
  lemma OccursInTail(s: string, sub: string, i: int)
    requires |s| > 0 && 0 <= i
    ensures OccursAt(s[1..], sub, i) <==> OccursAt(s, sub, i + 1)
  {
    if i + |sub| <= |s| - 1 {
      assert s[1..][i..i + |sub|] == s[i + 1..i + 1 + |sub|];
    }
  }

  /** A string in which the first character of `sub` never appears does not
      include `sub`. */
  lemma NotIncludedWithoutFirstChar(s: string, sub: string)
    requires |sub| > 0 && sub[0] !in s
    ensures !Includes(s, sub)
  {
    forall i | 0 <= i && i + |sub| <= |s|
      ensures !OccursAt(s, sub, i)
    {
      assert s[i..i + |sub|][0] == s[i] != sub[0];
    }
  }

  /** What a `catch (err)` clause can hold: an `Error` object with its
      message, or any other thrown value. */
  datatype Thrown = ErrorObject(message: string) | NonErrorValue

  /** `err instanceof Error ? err.message : fallback`. */
  function MessageOf(e: Thrown, fallback: string): (m: string)
    ensures e.ErrorObject? ==> m == e.message
    ensures e.NonErrorValue? ==> m == fallback
  {
    match e
    case ErrorObject(message) => message
    case NonErrorValue => fallback
  }

  /** How an awaited SDK wrapper settles: it resolves with the base64
      payload or rejects with a thrown value. */
  datatype Reply = Resolved(data: string) | Rejected(thrown: Thrown)
}
