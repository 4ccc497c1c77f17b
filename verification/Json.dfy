/**
 Parsed JSON documents with member names of some type. NotFinite stands for the infinities and NaN,
 which the parser also accepts as numbers.
 */
module Json {
  datatype Value<K> =
    | Null
    | Boolean(truth: bool)
    | Integer(whole: int)
    | Number(number: real)
    | NotFinite
    | Text(text: string)
    | Array(items: seq<Value<K>>)
    | Object(members: map<K, Value<K>>)

  /** A missing member reads as null. */
  function Get<K>(v: Value<K>, name: K): (member: Value<K>)
    requires v.Object?
    ensures name !in v.members ==> member.Null?
    ensures !member.Null? ==> name in v.members && v.members[name] == member
  {
    if name in v.members then v.members[name] else Null
  }

  predicate IsNumber<K>(v: Value<K>) {
    v.Integer? || v.Number?
  }

  function AsReal<K>(v: Value<K>): real
    requires IsNumber(v)
  {
    if v.Integer? then v.whole as real else v.number
  }
}
