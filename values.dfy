/** An optional value, for fields a message may leave out and ids a connection may not have. */
module Wrappers {
  datatype Option<T> = None | Some(value: T)
}

/**
 * A JavaScript `Set` as the code uses it: a sequence without repeats, in insertion order,
 * which is the order `forEach` and `Array.from` visit its elements in.
 */
module Sets {
  /** No element occurs twice: the elements of a JavaScript `Set`, in insertion order. */
  predicate NoDup<T(==)>(s: seq<T>)
  {
    forall i, j :: 0 <= i < j < |s| ==> s[i] != s[j]
  }

  /** `Set.prototype.add`: a new element goes last; an element already present stays where it is. */
  function Add<T(==)>(s: seq<T>, x: T): (r: seq<T>)
    ensures s <= r && |r| <= |s| + 1
    ensures x in r && (forall y :: y in s ==> y in r)
    ensures forall y :: y in r ==> y in s || y == x
    ensures NoDup(s) ==> NoDup(r)
  {
    if x in s then s else s + [x]
  }

  /** `Set.prototype.delete`: removes the element and keeps the others in their order. */
  function Delete<T(==)>(s: seq<T>, x: T): (r: seq<T>)
    ensures forall y :: y in r ==> y in s && y != x
    ensures forall y :: y in s && y != x ==> y in r
    ensures NoDup(s) ==> NoDup(r)
    ensures x !in s ==> r == s
    ensures NoDup(s) ==> forall k :: 0 <= k < |s| && s[k] == x ==> r == s[..k] + s[k + 1..]
  {
    if s == [] then []
    else
      assert NoDup(s) ==> s[0] !in s[1..] && NoDup(s[1..]);
      var rest := Delete(s[1..], x);
      assert NoDup(s) ==> forall k :: 0 <= k < |s| && s[k] == x ==> (if s[0] == x then [] else [s[0]]) + rest == s[..k] + s[k + 1..] by {
        if NoDup(s) { DeleteStep(s, x, rest); }
      }
      (if s[0] == x then [] else [s[0]]) + rest
  }

  /**
   * The recursive step of `Delete`: if deleting `x` from the tail cuts it out at its
   * position, keeping the head in front cuts it out of the whole sequence at its position.
   */
  lemma DeleteStep<T>(s: seq<T>, x: T, rest: seq<T>)
    requires |s| > 0 && NoDup(s)
    requires x !in s[1..] ==> rest == s[1..]
    requires forall k :: 0 <= k < |s[1..]| && s[1..][k] == x ==> rest == s[1..][..k] + s[1..][k + 1..]
    ensures forall k :: 0 <= k < |s| && s[k] == x ==> (if s[0] == x then [] else [s[0]]) + rest == s[..k] + s[k + 1..]
  {
    forall k | 0 <= k < |s| && s[k] == x
      ensures (if s[0] == x then [] else [s[0]]) + rest == s[..k] + s[k + 1..]
    {
      if k == 0 {
        assert x !in s[1..];
      } else {
        assert s[1..][k - 1] == x;
        assert s[..k] == [s[0]] + s[1..][..k - 1];
        assert s[k + 1..] == s[1..][k..];
      }
    }
  }
}

/**
 * The values that travel inside messages: JSON values, client identities, topics,
 * and the fixed error texts both servers send back.
 */
module Values {
  import opened Wrappers

  /** A JSON value as `JSON.parse` yields it; numbers are modelled as integers. */
  datatype Json =
    | JNull
    | JBool(b: bool)
    | JNum(n: int)
    | JStr(s: string)
    | JArr(items: seq<Json>)
    | JObj(fields: map<string, Json>)

  /** A client identity: clients sign in under a number or a string. */
  datatype Id = Num(n: int) | Str(s: string)

  /** A topic name. */
  type Topic = string

  /** The JSON form of an id. */
  function IdToJson(id: Id): Json
  {
    match id
    case Num(n) => JNum(n)
    case Str(s) => JStr(s)
  }

  /** Reads an id back from JSON; only numbers and strings are ids. */
  function IdFromJson(j: Json): (r: Option<Id>)
    ensures r.Some? <==> j.JNum? || j.JStr?
    ensures r.Some? ==> IdToJson(r.value) == j
    ensures forall id :: IdToJson(id) == j ==> r == Some(id)
  {
    match j
    case JNum(n) => Some(Num(n))
    case JStr(s) => Some(Str(s))
    case _ => None
  }

  /** JavaScript truthiness of an id value: 0 and the empty string are falsy. */
  predicate Truthy(id: Id)
  {
    match id
    case Num(n) => n != 0
    case Str(s) => s != ""
  }

  /** The decimal digits of a natural number. */
  function NatText(n: nat): string
    decreases n
  {
    var digit := [('0' as int + n % 10) as char];
    if n < 10 then digit else NatText(n / 10) + digit
  }

  /** An id as `util.format('%s', id)` renders it. */
  function IdText(id: Id): string
  {
    match id
    case Num(n) => if n < 0 then "-" + NatText(-n) else NatText(n)
    case Str(s) => s
  }

  /** The ERROR text for a message type the receiver does not handle. */
  function NotSupportedText(typeName: string): string
  {
    "The message type `" + typeName + "` is not supported"
  }

  /** The ERROR text for a SIGN_IN under an id that is already bound. */
  function AlreadyRegisteredText(id: Id): string
  {
    "A client is already registered with ID: " + IdText(id)
  }

  /** The ERROR text for a message addressed to an id with no connection. */
  function NotOnlineText(id: Id): string
  {
    "Client `" + IdText(id) + "` is not online"
  }

  /** The ERROR text for a topic nobody has subscribed to. */
  function TopicMissingText(topic: Topic): string
  {
    "Topic `" + topic + "` does not exist"
  }
}
