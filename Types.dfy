/** The fixed mapping from a declared JSDoc type to the TypeScript type written
    in the declaration file. */
module Types {
  import opened Common

  /** Declared types that are rewritten, and what each becomes; every other
      type passes through unchanged. */
  const Coercions: map<string, string> := map[
    "function" := "() => void",
    "byte[]" := "number[]",
    "int" := "number",
    "double" := "number",
    "long" := "number",
    "byte" := "number"
  ]

  /** The reference mapping, by table lookup. The source writes it out twice as
      a chain of comparisons (`Parameter.type`, `Comment.get_return_type`);
      both copies are proved equal to this function. */
  function Coerce(t: Option<string>): Option<string> {
    if t.Some? && t.value in Coercions then Some(Coercions[t.value]) else t
  }

  /** No coerced type is coerced again: what the table produces is never a key. */
  lemma CoerceIdempotent(t: Option<string>)
    ensures Coerce(Coerce(t)) == Coerce(t)
  {
  }

  /** Coercion keeps absence and emptiness: a type renders as `name : type`
      after coercion exactly when it would have before. */
  lemma CoerceKeepsTruthiness(t: Option<string>)
    ensures Coerce(t).None? <==> t.None?
    ensures Truthy(Coerce(t)) <==> Truthy(t)
  {
  }
}
