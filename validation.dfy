/** The input validators of server/utils/validation.js. */
module Validation {
  import opened Js
  import opened Constants

  /** `isValidChoice`: `VALID_CHOICES.includes(choice)`, i.e. the value is
      one of the three move names, compared as exact strings. */
  function IsValidChoice(choice: JsValue): (ok: bool)
    ensures ok <==> exists c :: choice == Str(Name(c))
  {
    ChoicesAreTheMoveNames();
    choice.Str? && choice.s in CHOICES
  }

  /** The move named by a string that `IsValidChoice` accepts. */
  function ParseChoice(s: string): (c: Option<Choice>)
    ensures c.Some? <==> IsValidChoice(Str(s))
    ensures c.Some? ==> Name(c.value) == s
  {
    if s == "rock" then Some(Rock)
    else if s == "paper" then Some(Paper)
    else if s == "scissors" then Some(Scissors)
    else None
  }

  /** The comparison is case-sensitive and the empty string is no move. */
  lemma ExactNamesOnly()
    ensures !IsValidChoice(Str("Rock")) && !IsValidChoice(Str("ROCK"))
    ensures !IsValidChoice(Str("")) && !IsValidChoice(Str(" rock"))
    ensures !IsValidChoice(Null) && !IsValidChoice(Undefined)
  {
    ChoicesAreTheMoveNames();
  }

  /** Parsing a move's own name gives the move back. */
  lemma ParseName(c: Choice)
    ensures ParseChoice(Name(c)) == Some(c)
  {
  }

  /** The characters `String.prototype.trim` removes: ECMAScript WhiteSpace
      (TAB, VT, FF, ZWNBSP and the Unicode space separators) and
      LineTerminator (LF, CR, LS, PS). */
  predicate IsWhiteSpace(c: char)
  {
    var n := c as int;
    n == 0x09 || n == 0x0A || n == 0x0B || n == 0x0C || n == 0x0D || n == 0x20 ||
    n == 0xA0 || n == 0x1680 || (0x2000 <= n <= 0x200A) || n == 0x2028 || n == 0x2029 ||
    n == 0x202F || n == 0x205F || n == 0x3000 || n == 0xFEFF
  }

  predicate AllWhiteSpace(s: string)
  {
    forall i :: 0 <= i < |s| ==> IsWhiteSpace(s[i])
  }

  /** `s` without its leading white space. */
  function TrimStart(s: string): (r: string)
    ensures |r| <= |s| && r == s[|s| - |r|..]
    ensures AllWhiteSpace(s[..|s| - |r|])
    ensures r != [] ==> !IsWhiteSpace(r[0])
  {
    if s != [] && IsWhiteSpace(s[0]) then TrimStart(s[1..]) else s
  }

  /** `s` without its trailing white space. */
  function TrimEnd(s: string): (r: string)
    ensures |r| <= |s| && r == s[..|r|]
    ensures AllWhiteSpace(s[|r|..])
    ensures r != [] ==> !IsWhiteSpace(r[|r| - 1])
  {
    if s != [] && IsWhiteSpace(s[|s| - 1]) then TrimEnd(s[..|s| - 1]) else s
  }

  /** `String.prototype.trim`. */
  function Trim(s: string): string
  {
    TrimEnd(TrimStart(s))
  }

  /** `isValidRoomID`, as the truthiness of its result: a string whose
      trimmed form is not empty. Any other value, the empty string among
      them, is rejected. */
  function IsValidRoomId(roomId: JsValue): (ok: bool)
    ensures ok <==> roomId.Str? && !AllWhiteSpace(roomId.s)
  {
    Truthy(roomId) && roomId.Str? && (TrimIsEmptyIff(roomId.s); |Trim(roomId.s)| > 0)
  }

  /** Trimming leaves nothing exactly when the string is all white space. */
  lemma TrimIsEmptyIff(s: string)
    ensures Trim(s) == [] <==> AllWhiteSpace(s)
  {
  }

  /** Leading white space does not change what `TrimStart` keeps. */
  lemma {:induction false} TrimStartSkipsPrefix(pre: string, s: string)
    requires AllWhiteSpace(pre)
    ensures TrimStart(pre + s) == TrimStart(s)
  {
    if pre != [] {
      assert (pre + s)[1..] == pre[1..] + s;
      TrimStartSkipsPrefix(pre[1..], s);
    } else {
      assert pre + s == s;
    }
  }

  /** Once a string has content, `TrimStart` stops inside it. */
  lemma {:induction false} TrimStartOfAppend(s: string, t: string)
    requires !AllWhiteSpace(s)
    ensures TrimStart(s + t) == TrimStart(s) + t
  {
    assert s != [];
    assert (s + t)[0] == s[0];
    if IsWhiteSpace(s[0]) {
      assert (s + t)[1..] == s[1..] + t;
      assert !AllWhiteSpace(s[1..]) by {
        var i :| 0 <= i < |s| && !IsWhiteSpace(s[i]);
        assert s[1..][i - 1] == s[i];
      }
      TrimStartOfAppend(s[1..], t);
    }
  }

  /** Trailing white space does not change what `TrimEnd` keeps. */
  lemma {:induction false} TrimEndSkipsSuffix(s: string, post: string)
    requires AllWhiteSpace(post)
    ensures TrimEnd(s + post) == TrimEnd(s)
  {
    if post != [] {
      var shorter := post[..|post| - 1];
      assert (s + post)[..|s + post| - 1] == s + shorter;
      TrimEndSkipsSuffix(s, shorter);
    } else {
      assert s + post == s;
    }
  }

  /** White space around a room id never changes its trimmed form. */
  lemma PaddingIsTrimmed(pre: string, s: string, post: string)
    requires AllWhiteSpace(pre) && AllWhiteSpace(post)
    ensures Trim(pre + s + post) == Trim(s)
  {
    assert pre + s + post == pre + (s + post);
    TrimStartSkipsPrefix(pre, s + post);
    if AllWhiteSpace(s) {
      BlankTrimsToEmpty(s, post);
    } else {
      TrimStartOfAppend(s, post);
      TrimEndSkipsSuffix(TrimStart(s), post);
    }
  }

  /** Blank text followed by white space trims to nothing, as the blank
      text alone does. */
  lemma BlankTrimsToEmpty(s: string, post: string)
    requires AllWhiteSpace(s) && AllWhiteSpace(post)
    ensures TrimStart(s + post) == [] && TrimStart(s) == []
  {
    forall i | 0 <= i < |s + post|
      ensures IsWhiteSpace((s + post)[i])
    {
      if i >= |s| {
        assert (s + post)[i] == post[i - |s|];
      }
    }
    BlankTrimStart(s + post);
    BlankTrimStart(s);
  }

  /** A blank string trims to nothing. */
  lemma {:induction false} BlankTrimStart(s: string)
    requires AllWhiteSpace(s)
    ensures TrimStart(s) == []
  {
    if s != [] {
      assert AllWhiteSpace(s[1..]) by {
        forall i | 0 <= i < |s[1..]|
          ensures IsWhiteSpace(s[1..][i])
        {
          assert s[1..][i] == s[i + 1];
        }
      }
      BlankTrimStart(s[1..]);
    }
  }

  /** ... and so never changes the verdict of `isValidRoomID`. */
  lemma PaddingIsIgnored(pre: string, s: string, post: string)
    requires AllWhiteSpace(pre) && AllWhiteSpace(post)
    ensures IsValidRoomId(Str(pre + s + post)) == IsValidRoomId(Str(s))
  {
    PaddingIsTrimmed(pre, s, post);
    TrimIsEmptyIff(pre + s + post);
    TrimIsEmptyIff(s);
  }

  /** Trimming twice is trimming once. */
  lemma TrimIdempotent(s: string)
    ensures Trim(Trim(s)) == Trim(s)
  {
    var t := Trim(s);
    if t != [] {
      var u := TrimStart(s);
      assert t == u[..|t|];
      assert t[0] == u[0];
    }
  }
}
