# Huffman coder: merge-tree node and selection stack

This project models, in Dafny, the two data structures a small Huffman coder
is built on (`dependencies.py`):

- `binary_tree`, the node of the merge tree. It keeps a record
  `[freq, left, right]`, where each child is either a bare symbol (a string)
  or another node. It has read accessors for the three slots, an in-place
  frequency update, and the `leaf` query the decoder uses to ask whether the
  child on a given side is a terminal symbol. Here it is the class
  `BinaryTrees.BinaryTree`; the "string or node" child is the variant
  `Child = Sym(s) | Sub(t)`.
- `queue`, which despite its name is a last-in, first-out stack over a list:
  `enqueue` appends at the tail, `dequeue` pops the tail, `peek` views the
  tail, and `len` counts. Here it is the class `Queues.Queue<T>`, whose list
  is the field `items: seq<T>`. The methods reassign that field.

Python raises `IndexError` when `dequeue` or `peek` is used on an empty
list. The model returns the `IndexError` outcome of `Queues.Outcome` in that
case and leaves the contents unchanged. It does not make non-emptiness a
precondition. The Huffman builder relies on this raise when the alphabet is
empty: its final `peek` then fails.

`Queues.Drain` gives the order in which repeated `dequeue` calls return the
items of a queue. The lemmas about it state the stack discipline the coder
relies on: the items come out back to front. So a queue filled in
non-increasing frequency order gives up its lowest frequencies first.

## Model

| member | source | states |
|---|---|---|
| `BinaryTrees.BinaryTree.constructor` | dependencies.py:2-30 | after construction from `(freq, left, right)`, the `frequency`, `left` and `right` accessors return exactly those three values; nothing ties the frequency to the children |
| `BinaryTrees.BinaryTree.FreqUpdate` | dependencies.py:12-18 | afterwards `frequency` is the new value; `left`, `right` and the answer of every `leaf` query are unchanged; no other field is written |
| `BinaryTrees.BinaryTree.Leaf` | dependencies.py:32-49 | a read-only query (it reads the node and writes nothing); for the string "0" it is true exactly when the left child is a symbol, not a subtree; for every other argument it is true exactly when the right child is a symbol |
| `BinaryTrees.LeafOtherThanZero` | dependencies.py:41-49 | the integer 0, the string "1" and every other argument except the string "0" all give the same answer: whether the right child is a symbol |
| `Queues.Queue.constructor` | dependencies.py:100-107 | a fresh queue holds nothing and its length is 0 |
| `Queues.Queue.Len` | dependencies.py:106-107 | the length is zero exactly when the queue is empty, and it equals the number of items repeated dequeues would return |
| `Queues.Queue.Enqueue` | dependencies.py:109-110 | the new contents are the old contents with `x` appended at the tail; the length grows by one; `x` is now the first item repeated dequeues would return, ahead of all the old ones |
| `Queues.Queue.Dequeue` | dependencies.py:112-114 | on a non-empty queue it returns the most recently enqueued (tail) item and leaves the contents minus that item; on an empty queue it reports `IndexError` and changes nothing; the item returned is the head of the drain order |
| `Queues.Queue.Peek` | dependencies.py:116-119 | reports `IndexError` exactly when the queue is empty; otherwise returns the tail item, the one the next dequeue would return; it changes nothing |
| `Queues.EnqueueThenDequeue` | dependencies.py:109-114 | an enqueue of `x` followed by a dequeue returns `x` and restores the contents held before |
| `Queues.Drain` | dependencies.py:112-114 | the order in which repeated dequeues return the items has the same length as the contents, and its i-th item is the i-th item counted back from the tail |
| `Queues.DrainAppend` | dependencies.py:109-114 | items enqueued after the current contents come out before all of them, in reverse order of enqueueing |
| `Queues.DrainOfNonIncreasing` | dependencies.py:112-114 | if the contents are non-increasing from front to tail, repeated dequeues return them in non-decreasing order |

## Left out

- `binary_tree.__str__` (the ASCII-art rendering of a tree) is presentational only and is not modelled.
- The Huffman builder, encoder, decoder and demonstration driver that use these structures are not part of this model.
- Python's dynamic typing of children is modelled by the `Child` variant tag. The check `type(child) == binary_tree` becomes `Sub?`. A child that is neither a string nor a node cannot be expressed.
- `BinaryTrees.BinaryTree.Leaf` models the argument as a string or an integer (`Selector`). Other Python values (booleans, bytes, `None`) compare unequal to `"0"` like the integer 0 does, so they behave like `Int(0)`. They are not listed separately.
- `Queues.Queue.Enqueue` is generic in the item type. The source annotates the item as `str`, but the coder enqueues strings, nodes and integers alike, and nothing checks the annotation.
- Object identity and aliasing of subtrees (one node placed under two parents) are not constrained, as in the source.
