/** MongoDB object ids as the Mongoose queries of both backends cast them:
    a query on `_id` with a string that is not an object id fails with a
    `CastError` before the collection is read. */
module ObjectIds {

  predicate IsHexDigit(c: char)
  {
    '0' <= c <= '9' || 'a' <= c <= 'f' || 'A' <= c <= 'F'
  }

  /** `mongoose.Types.ObjectId.isValid(id)` on a string, as Mongoose 6
      (bson 4) decides it: twelve ASCII characters (read as twelve raw
      bytes), or twenty-four hexadecimal digits. */
  predicate IsValidObjectId(id: string)
  {
    (|id| == 12 && forall i :: 0 <= i < |id| ==> id[i] < 128 as char)
    || (|id| == 24 && forall i :: 0 <= i < |id| ==> IsHexDigit(id[i]))
  }

  /** A string no query can cast to an object id. */
  type MalformedId = s: string | !IsValidObjectId(s) witness ""

  /** The message of the `CastError` a query on `model` raises for an `_id`
      that is not an object id. */
  function CastMessage(model: string, id: string): (m: string)
    ensures |m| > |id| + |model|
  {
    "Cast to ObjectId failed for value \"" + id + "\" (type string) at path \"_id\" for model \"" + model + "\""
  }
}
