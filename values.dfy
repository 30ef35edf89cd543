/** The value types of the tree codec: optional integers (the level-order
    tokens), the binary tree that is rebuilt from them, and the small
    helpers both stages share. */
module TreeValues {

  /** One level-order token: an integer, or the null marker when `isNull`
      holds (the field `null` of the source). The tokenizer and the
      normalizer build nulls only with `NewNil`, whose `value` is 0. */
  datatype NilInt = NilInt(value: int, isNull: bool)

  /** A present token carrying `x`. */
  function NewInt(x: int): (n: NilInt)
    ensures !n.isNull && n.value == x
  {
    NilInt(x, false)
  }

  /** The null marker; its value is 0, so all nulls are equal. */
  function NewNil(): (n: NilInt)
    ensures n.isNull && n.value == 0
  {
    NilInt(0, true)
  }

  /** A binary tree; `Nil` stands for the absent (nil) child pointer. */
  datatype Tree = Nil | Node(val: int, left: Tree, right: Tree)

  datatype Option<T> = None | Some(value: T)

  /** What the reconstruction returns: a root, or the error message. */
  datatype TreeResult = Ok(root: Tree) | Err(msg: string)

  /** The message returned when the root token is null. */
  const WrongRoot: string := "wrong root value"

  /** 2^k, the number of slots on level k of a heap-indexed array. */
  function Pow2(k: nat): (r: nat)
    ensures r >= 1
  {
    if k == 0 then 1 else 2 * Pow2(k - 1)
  }

  function Min(x: int, y: int): int
  {
    if x <= y then x else y
  }
}
