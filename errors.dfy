/** The exceptions the extraction can raise and nothing in it catches. */
module Errors {
  import opened Json

  datatype Error =
      /** `json.loads(None)` for a JSON-LD script without a single text child: a TypeError. */
    | JsonLoadsOfNone
      /** `.get("name")` on a Schema.org `author[0].mainEntity` that is not a dict: an AttributeError. */
    | NoGetAttribute(receiver: Json)
}
