/**
  * `MarketGroups/Sidebar/CreateMarketGroupModal.tsx`: the "Add Market Group"
  * modal. Its name input drops the first UTF-16 code unit that is not an
  * ASCII letter, a digit or white space; "Create" passes the name on and
  * closes.
  */
module CreateMarketGroupModal {

  /** A UTF-16 code unit; a JavaScript string is a sequence of them. */
  type CodeUnit = n: int | 0 <= n < 0x10000

  type JsString = seq<CodeUnit>

  predicate IsHighSurrogate(u: CodeUnit) {
    0xD800 <= u < 0xDC00
  }

  predicate IsLowSurrogate(u: CodeUnit) {
    0xDC00 <= u < 0xE000
  }

  /**
    * How one typed character is stored in a JavaScript string: as itself
    * below U+10000, otherwise as a surrogate pair.
    */
  function Utf16(c: char): (r: JsString)
    ensures |r| == 1 <==> c as int < 0x10000
    ensures |r| == 1 ==> r[0] == c as int
    ensures |r| != 1 ==> |r| == 2 && IsHighSurrogate(r[0]) && IsLowSurrogate(r[1])
  {
    var n := c as int;
    if n < 0x10000 then [n]
    else [0xD800 + (n - 0x10000) / 0x400, 0xDC00 + (n - 0x10000) % 0x400]
  }

  /**
    * `\s` in a JavaScript regular expression: tab, line feed, vertical tab,
    * form feed, carriage return, space, no-break space, ogham space, the
    * spaces U+2000 to U+200A, line and paragraph separators, narrow no-break
    * space, medium mathematical space, ideographic space and the byte-order mark.
    */
  predicate IsJsSpace(u: CodeUnit) {
    (0x09 <= u <= 0x0D) || u == 0x20 || u == 0xA0 || u == 0x1680 || (0x2000 <= u <= 0x200A)
    || u == 0x2028 || u == 0x2029 || u == 0x202F || u == 0x205F || u == 0x3000 || u == 0xFEFF
  }

  /** The code units `[A-Za-z\d\s]` accepts: `A`-`Z`, `a`-`z`, `0`-`9` and white space. */
  predicate Allowed(u: CodeUnit) {
    (0x41 <= u <= 0x5A) || (0x61 <= u <= 0x7A) || (0x30 <= u <= 0x39) || IsJsSpace(u)
  }

  predicate AllAllowed(s: JsString) {
    forall i :: 0 <= i < |s| ==> Allowed(s[i])
  }

  /** The index of the first code unit that is not allowed, or `|s|` when there is none. */
  function FirstDisallowed(s: JsString): (k: nat)
    ensures k <= |s|
    ensures forall i :: 0 <= i < k ==> Allowed(s[i])
    ensures k < |s| ==> !Allowed(s[k])
  {
    if s == [] then 0 else if !Allowed(s[0]) then 0 else 1 + FirstDisallowed(s[1..])
  }

  /**
    * `value.replace(/[^A-Za-z\d\s]/, '')`: without the `g` flag only the
    * first match is removed, and without the `u` flag a match is a single
    * code unit.
    */
  function SanitiseName(s: JsString): (r: JsString)
    ensures AllAllowed(s) ==> r == s
    ensures !AllAllowed(s) ==> |r| == |s| - 1
    ensures !AllAllowed(s) ==>
      var k := FirstDisallowed(s);
      r == s[..k] + s[k + 1..]
  {
    var k := FirstDisallowed(s);
    if k < |s| then s[..k] + s[k + 1..] else s
  }

  /**
    * Typing one character at the end of a clean name: a character below
    * U+10000 is kept when allowed and dropped otherwise, so the name stays
    * clean; a character above it arrives as a surrogate pair, of which only
    * the high half is removed, leaving a lone low surrogate in the name.
    */
  lemma TypingKeepsNameClean(s: JsString, c: char)
    requires AllAllowed(s)
    ensures c as int < 0x10000 ==>
      SanitiseName(s + Utf16(c)) == (if Allowed(c as int) then s + [c as int] else s)
    ensures c as int < 0x10000 ==> AllAllowed(SanitiseName(s + Utf16(c)))
    ensures c as int >= 0x10000 ==>
      SanitiseName(s + Utf16(c)) == s + [Utf16(c)[1]] && !AllAllowed(SanitiseName(s + Utf16(c)))
  {
    var u := Utf16(c);
    var t := s + u;
    assert forall i :: 0 <= i < |s| ==> t[i] == s[i];
    assert t[|s|] == u[0];
    if !Allowed(u[0]) {
      assert FirstDisallowed(t) == |s|;
      assert t[..|s|] == s;
      if |u| == 2 {
        assert t[|s| + 1..] == [u[1]];
        assert !Allowed(u[1]);
        assert SanitiseName(t)[|s|] == u[1];
      } else {
        assert t[|s| + 1..] == [];
      }
    }
  }

  /** A pasted value with two disallowed code units keeps the second one. */
  lemma PasteKeepsSecondDisallowed(s: JsString, i: int, j: int)
    requires 0 <= i < j < |s| && !Allowed(s[i]) && !Allowed(s[j])
    ensures !AllAllowed(SanitiseName(s))
  {
    var k := FirstDisallowed(s);
    var r := SanitiseName(s);
    assert k <= i;
    assert r[j - 1] == s[j];
  }

  class CreateMarketGroupModalView {
    var visible: bool
    var name: JsString

    constructor ()
      ensures !visible && name == []
    {
      visible := false;
      name := [];
    }

    /** "Create" is disabled while the name is empty. */
    predicate IsCreateDisabled()
      reads this
    {
      name == []
    }

    /** `showModal` */
    method ShowModal()
      modifies this
      ensures visible && name == old(name)
    {
      visible := true;
    }

    /** `handleClose`: empties the name and hides the modal. */
    method HandleClose()
      modifies this
      ensures !visible && name == []
    {
      name := [];
      visible := false;
    }

    /** The input's `onChange`: the sanitised value becomes the name. */
    method OnNameChange(value: JsString)
      modifies this
      ensures name == SanitiseName(value) && visible == old(visible)
    {
      name := SanitiseName(value);
    }

    /** `createHandler`: the action gets the current name (returned), then the modal closes. */
    method CreateHandler() returns (created: JsString)
      modifies this
      ensures created == old(name)
      ensures !visible && name == [] && IsCreateDisabled()
    {
      created := name;
      HandleClose();
    }
  }
}
