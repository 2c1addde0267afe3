/**
 * Document identifiers. `primitive.ObjectIDFromHex` accepts exactly 24
 * hexadecimal digits, in either case, and yields a 12-byte identifier; the
 * driver itself is not part of this model. An identifier is represented by
 * its canonical spelling, the 24 lower-case digits that `ObjectID.Hex()`
 * prints.
 */
module ObjectIds {
  import opened Wrappers

  predicate IsHexDigit(c: char) { '0' <= c <= '9' || 'a' <= c <= 'f' || 'A' <= c <= 'F' }

  predicate IsLowerHexDigit(c: char) { '0' <= c <= '9' || 'a' <= c <= 'f' }

  function ToLowerHex(c: char): (r: char)
    requires IsHexDigit(c)
    ensures IsLowerHexDigit(r)
    ensures IsLowerHexDigit(c) ==> r == c
    ensures 'A' <= c <= 'F' ==> r != c
  {
    if 'A' <= c <= 'F' then (c as int - 'A' as int + 'a' as int) as char else c
  }

  predicate IsCanonical(s: string) {
    |s| == 24 && forall i :: 0 <= i < |s| ==> IsLowerHexDigit(s[i])
  }

  type ObjectId = s: string | IsCanonical(s) witness "000000000000000000000000"

  /** `primitive.ObjectIDFromHex`: fails unless the text is 24 hex digits. */
  function ParseObjectId(s: string): (r: Option<ObjectId>)
    ensures r.Some? <==> |s| == 24 && forall i :: 0 <= i < |s| ==> IsHexDigit(s[i])
    ensures r.Some? ==> forall i :: 0 <= i < 24 ==> r.value[i] == ToLowerHex(s[i])
  {
    if |s| == 24 && forall i :: 0 <= i < |s| ==> IsHexDigit(s[i]) then
      Some(seq(24, i requires 0 <= i < 24 => ToLowerHex(s[i])))
    else
      None
  }

  /** The empty path parameter is never an identifier, so the handlers'
      separate empty-id check only chooses the error message. */
  lemma EmptyIsNotAnId()
    ensures ParseObjectId("").None?
  {
  }

  /** Parsing the canonical spelling of an identifier gives that identifier back. */
  lemma ParseCanonical(oid: ObjectId)
    ensures ParseObjectId(oid) == Some(oid)
  {
    var r := ParseObjectId(oid);
    assert forall i :: 0 <= i < 24 ==> IsHexDigit(oid[i]);
    assert r.value == oid;
  }
}
