/**
 * `LockableNode` of the high-availability layer: a stand-in node that carries
 * only an id, used as the object a lock is taken on. Its identity (id,
 * equality, hash, printed form) is real; every other node operation is
 * unsupported.
 */
module Lockable {
  import opened Results
  import opened Bytes

  /** A lockable node: the `int` id given to its constructor. */
  datatype LockableNode = LockableNode(id: int32)

  /**
   * What `equals` may be handed: some node, known by its `long` id (a lockable
   * node or any other kind), or an object that is not a node.
   */
  datatype Object = NodeObject(nodeId: int) | NotANode

  /** A lockable node seen as an object. */
  function AsObject(n: LockableNode): Object {
    NodeObject(GetId(n))
  }

  /** `getId()`: the constructor's id, widened to `long`. */
  function GetId(n: LockableNode): (r: int)
    ensures -0x8000_0000 <= r < 0x8000_0000
  {
    n.id
  }

  /** `new LockableNode(id).getId()` gives back `id`. */
  lemma GetIdIsConstructorId(id: int32)
    ensures GetId(LockableNode(id)) == id
  {
  }

  /** `equals(o)`: `o` is a node whose id is this node's id. */
  function Equals(n: LockableNode, o: Object): (r: bool)
    ensures r <==> o.NodeObject? && o.nodeId == n.id
  {
    match o
    case NotANode => false
    case NodeObject(other) => GetId(n) == other
  }

  /** `hashCode()`: the id itself. */
  function HashCode(n: LockableNode): (r: int32)
    ensures r == GetId(n)
  {
    n.id
  }

  /**
   * Between lockable nodes `equals` is exactly equality of the values, so it is
   * reflexive, symmetric and transitive, and equal nodes hash alike.
   */
  lemma EqualsIsIdentity(a: LockableNode, b: LockableNode, c: LockableNode)
    ensures Equals(a, AsObject(b)) <==> a == b
    ensures Equals(a, AsObject(a))
    ensures Equals(a, AsObject(b)) ==> Equals(b, AsObject(a))
    ensures Equals(a, AsObject(b)) && Equals(b, AsObject(c)) ==> Equals(a, AsObject(c))
    ensures Equals(a, AsObject(b)) ==> HashCode(a) == HashCode(b)
  {
  }

  /** A lockable node equals any node with its id, whatever kind that node is, and nothing else. */
  lemma EqualsAnyNodeWithId(n: LockableNode, o: Object)
    ensures Equals(n, o) <==> o == NodeObject(GetId(n))
  {
  }

  // -------------------------------------------------------------------------
  // The printed form

  function DigitChar(d: nat): (c: char)
    requires d < 10
    ensures '0' <= c <= '9'
  {
    (48 + d) as char
  }

  predicate AllDigits(s: string) {
    forall i | 0 <= i < |s| :: '0' <= s[i] <= '9'
  }

  /** The decimal digits of `n`, without leading zeros. */
  function Digits(n: nat): (r: string)
    ensures |r| >= 1
    ensures AllDigits(r)
    ensures r[0] == '0' <==> n == 0
  {
    if n < 10 then [DigitChar(n)] else Digits(n / 10) + [DigitChar(n % 10)]
  }

  /** The number a string of decimal digits denotes. */
  function ParseDigits(s: string): nat
    requires AllDigits(s)
  {
    if s == [] then 0 else 10 * ParseDigits(s[..|s| - 1]) + (s[|s| - 1] as int - 48)
  }

  lemma {:induction false} ParseDigitsOfDigits(n: nat)
    ensures ParseDigits(Digits(n)) == n
  {
    if n >= 10 {
      var s := Digits(n);
      assert s[..|s| - 1] == Digits(n / 10);
      ParseDigitsOfDigits(n / 10);
    }
  }

  /**
   * Reads a decimal `long` as `Long.parseLong` does for plain decimal text: an
   * optional minus sign, then at least one digit.
   */
  function ParseLong(s: string): Option<int> {
    if |s| >= 2 && s[0] == '-' && AllDigits(s[1..]) then Some(0 - ParseDigits(s[1..]) as int)
    else if |s| >= 1 && AllDigits(s) then Some(ParseDigits(s))
    else None
  }

  /** Java's decimal form of a `long`: a minus sign for negative values, then the digits. */
  function LongToString(x: int): (r: string)
    ensures |r| >= 1
    ensures r[0] == '-' <==> x < 0
    ensures ParseLong(r) == Some(x)
    ensures |r| > (if x < 0 then 1 else 0)
    ensures r[if x < 0 then 1 else 0] == '0' ==> r == "0"
  {
    if x < 0 then
      var d := Digits(-x);
      ParseDigitsOfDigits(-x);
      assert ("-" + d)[1..] == d;
      "-" + d
    else
      ParseDigitsOfDigits(x);
      Digits(x)
  }

  /** Distinct numbers print differently. */
  lemma LongToStringInjective(a: int, b: int)
    requires LongToString(a) == LongToString(b)
    ensures a == b
  {
  }

  const ToStringPrefix := "Lockable node #"

  /** `toString()`: "Lockable node #" followed by the id. */
  function ToString(n: LockableNode): (r: string)
    ensures |r| > |ToStringPrefix| && r[..|ToStringPrefix|] == ToStringPrefix
    ensures ParseLong(r[|ToStringPrefix|..]) == Some(GetId(n))
    ensures r[|ToStringPrefix| + (if GetId(n) < 0 then 1 else 0)] == '0' ==> r == ToStringPrefix + "0"
  {
    var s := LongToString(GetId(n));
    assert (ToStringPrefix + s)[|ToStringPrefix|..] == s;
    ToStringPrefix + s
  }

  /** The printed form identifies the node: different nodes print differently. */
  lemma ToStringIdentifies(a: LockableNode, b: LockableNode)
    ensures ToString(a) == ToString(b) <==> a == b
  {
  }

  // -------------------------------------------------------------------------
  // The node interface

  /** The operations of the `Node` interface; arguments play no part and are left out. */
  datatype NodeOp =
    | Delete
    | GetIdOp
    | GetGraphDatabase
    | GetProperty
    | GetPropertyOrDefault
    | GetPropertyKeys
    | GetPropertyValues
    | HasProperty
    | RemoveProperty
    | SetProperty
    | EqualsOp(other: Object)
    | HashCodeOp
    | ToStringOp
    | CreateRelationshipTo
    | GetRelationships
    | GetRelationshipsOfTypes
    | GetRelationshipsInDirection
    | GetRelationshipsOfTypeInDirection
    | GetSingleRelationship
    | HasRelationship
    | HasRelationshipOfTypes
    | HasRelationshipInDirection
    | HasRelationshipOfTypeInDirection
    | Traverse
    | TraverseTwoTypes
    | TraverseManyTypes

  /** What a supported operation returns. */
  datatype Value = LongValue(l: int) | BoolValue(b: bool) | IntValue(i: int32) | StringValue(s: string)

  /** `UnsupportedOperationException` with its message. */
  datatype Unsupported = UnsupportedOperation(message: string)

  const UnsupportedMessage := "Lockable node"

  /** The operations a lockable node supports: its identity. */
  predicate IsIdentityOp(op: NodeOp) {
    op.GetIdOp? || op.EqualsOp? || op.HashCodeOp? || op.ToStringOp?
  }

  /** Calls `op` on the node. */
  function Invoke(n: LockableNode, op: NodeOp): (r: Result<Value, Unsupported>)
    ensures r.Failure? <==> !IsIdentityOp(op)
    ensures r.Failure? ==> r.error == UnsupportedOperation(UnsupportedMessage)
    ensures op.GetIdOp? ==> r == Success(LongValue(n.id))
    ensures op.EqualsOp? ==> r == Success(BoolValue(op.other.NodeObject? && op.other.nodeId == n.id))
    ensures op.HashCodeOp? ==> r == Success(IntValue(n.id))
    ensures op.ToStringOp? ==> r == Success(StringValue(ToString(n)))
  {
    match op
    case GetIdOp => Success(LongValue(GetId(n)))
    case EqualsOp(o) => Success(BoolValue(Equals(n, o)))
    case HashCodeOp => Success(IntValue(HashCode(n)))
    case ToStringOp => Success(StringValue(ToString(n)))
    case _ => Failure(UnsupportedOperation(UnsupportedMessage))
  }
}
