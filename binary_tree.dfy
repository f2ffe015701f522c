/** The merge-tree node of the Huffman coder (`binary_tree`).

    A node keeps a three-slot record: its frequency and its two children.
    A child is either a bare symbol or another node; the program tells the
    two apart by the child's run-time type, which this model writes as the
    tag of the `Child` variant. */
module BinaryTrees {

  /** One child slot of a node: a terminal symbol or a further subtree. */
  datatype Child = Sym(s: string) | Sub(t: BinaryTree)

  /** The argument handed to `Leaf`. The decoder passes one-character strings
      ("0" or "1"); the documentation also speaks of the integers 0 and 1.
      Both kinds are kept so that the comparison with the string "0" can be
      stated for every argument the program may receive. */
  datatype Selector = Str(text: string) | Int(n: int)

  class BinaryTree {
    // the three slots of the record, in the order [freq, left, right]
    var freq: int
    var left: Child
    var right: Child

    /** Stores the three slots exactly as given: no relation between the
        frequency and the children is checked or kept. */
    constructor (freq: int, left: Child, right: Child)
      ensures Frequency() == freq
      ensures Left() == left
      ensures Right() == right
    {
      this.freq := freq;
      this.left := left;
      this.right := right;
    }

    /** Overwrites the frequency slot in place; the children stay as they
        were, and so does the answer of every `Leaf` query. */
    method FreqUpdate(value: int)
      modifies this`freq
      ensures Frequency() == value
      ensures Left() == old(Left()) && Right() == old(Right())
      ensures forall sel :: Leaf(sel) == old(Leaf(sel))
    {
      freq := value;
    }

    /** Read accessor of the frequency slot. */
    function Frequency(): int
      reads this
    {
      freq
    }

    /** Read accessor of the left child slot. */
    function Left(): Child
      reads this
    {
      left
    }

    /** Read accessor of the right child slot. */
    function Right(): Child
      reads this
    {
      right
    }

    /** Whether the child picked by `sel` is a terminal symbol rather than a
        subtree. Only the string "0" picks the left child; every other
        argument, "1" and the integer 0 included, picks the right one. */
    function Leaf(sel: Selector): (r: bool)
      reads this
      ensures sel == Str("0") ==> (r <==> Left().Sym?)
      ensures sel != Str("0") ==> (r <==> Right().Sym?)
    {
      var goLeft := sel == Str("0");
      if goLeft then !left.Sub? else !right.Sub?
    }
  }

  /** Every argument other than the string "0" asks the same question of a
      node: whether its right child is a symbol. */
  lemma LeafOtherThanZero(t: BinaryTree, sel: Selector)
    requires sel != Str("0")
    ensures t.Leaf(sel) == t.Leaf(Int(0)) == t.Leaf(Str("1")) == t.Right().Sym?
  {
  }
}
