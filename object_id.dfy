/** MongoDB object ids as the backend uses them: `ObjectId.is_valid(s)` on a
    path parameter, `ObjectId(s)` to look a document up, `str(_id)` to report
    it, and the `PyObjectId.validate` hook of models.py. */
module ObjectIds {
  import opened Values

  predicate IsHexDigit(c: char) {
    ('0' <= c <= '9') || ('a' <= c <= 'f') || ('A' <= c <= 'F')
  }

  predicate IsLowerHexDigit(c: char) {
    ('0' <= c <= '9') || ('a' <= c <= 'f')
  }

  /** `ObjectId.is_valid(s)` for a string `s`: exactly 24 hexadecimal digits,
      in either case. */
  predicate IsValid(s: string)
    ensures IsCanonical(s) ==> IsValid(s)
  {
    |s| == 24 && forall i :: 0 <= i < |s| ==> IsHexDigit(s[i])
  }

  /** The form `str(oid)` prints: 24 lower-case hexadecimal digits. */
  predicate IsCanonical(s: string) {
    |s| == 24 && forall i :: 0 <= i < |s| ==> IsLowerHexDigit(s[i])
  }

  /** An object id, identified with its printed form `str(oid)`. */
  type ObjectId = s: string | IsCanonical(s) witness "000000000000000000000000"

  function LowerHex(c: char): (d: char)
    requires IsHexDigit(c)
    ensures IsLowerHexDigit(d)
  {
    if 'A' <= c <= 'F' then (c as int - 'A' as int + 'a' as int) as char else c
  }

  /** `ObjectId(s)` followed by `str(...)`: the same twelve bytes, printed in
      lower case. */
  function Parse(s: string): (oid: ObjectId)
    requires IsValid(s)
    ensures forall i :: 0 <= i < 24 && IsLowerHexDigit(s[i]) ==> oid[i] == s[i]
    ensures IsCanonical(s) ==> oid == s
  {
    seq(24, i requires 0 <= i < 24 => LowerHex(s[i]))
  }

  /** Two valid strings name the same object id exactly when they agree up to
      the case of their letters. */
  lemma ParseSame(s: string, t: string)
    requires IsValid(s) && IsValid(t)
    ensures Parse(s) == Parse(t) <==> forall i :: 0 <= i < 24 ==> LowerHex(s[i]) == LowerHex(t[i])
  {
    if Parse(s) == Parse(t) {
      forall i | 0 <= i < 24 ensures LowerHex(s[i]) == LowerHex(t[i]) {
        assert Parse(s)[i] == Parse(t)[i];
      }
    }
  }

  datatype ValueError = InvalidObjectId

  /** `PyObjectId.validate(v)`: `ValueError("Invalid ObjectId")` unless
      `ObjectId.is_valid(v)`, otherwise the converted id. */
  function Validate(v: string): (r: Result<ObjectId, ValueError>)
    ensures r.Err? <==> !IsValid(v)
    ensures r.Ok? ==> forall i :: 0 <= i < 24 ==> r.value[i] == LowerHex(v[i])
  {
    if !IsValid(v) then Err(InvalidObjectId) else Ok(Parse(v))
  }
}
