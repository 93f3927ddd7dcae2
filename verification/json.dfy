/** JSON documents as nlohmann::json holds them after parsing, and its typed access. `None`
    stands for every exception: text that does not parse, a missing key, a wrong type. */
module Json {
  import opened Wrappers
  import opened Float64

  /** A number without fraction or exponent that fits in 64 bits parses as `Integer`, any other
      number as `Float`. */
  datatype Json =
    | Null
    | Bool(b: bool)
    | Integer(n: int)
    | Float(value: real)
    | Str(s: string)
    | Array(elements: seq<Json>)
    | Object(members: map<string, Json>)

  const INT64_MIN: int := -0x8000_0000_0000_0000
  const INT64_MAX: int := 0x7FFF_FFFF_FFFF_FFFF

  predicate IsInt64(n: int) {
    INT64_MIN <= n <= INT64_MAX
  }

  /** `static_cast<int64_t>` of a 64-bit integer of either sign. */
  function WrapInt64(n: int): (r: int)
    ensures IsInt64(r)
    ensures IsInt64(n) ==> r == n
    ensures (r - n) % 0x1_0000_0000_0000_0000 == 0
  {
    (n - INT64_MIN) % 0x1_0000_0000_0000_0000 + INT64_MIN
  }

  function Truncate(x: real): int {
    if x >= 0.0 then x.Floor else -((-x).Floor)
  }

  /** `static_cast<int64_t>` of a double: truncation, saturating outside the range of int64 as
      the AArch64 conversion does. */
  function DoubleToInt64(x: real): (r: int)
    ensures IsInt64(r)
    ensures IsInt64(Truncate(x)) ==> r == Truncate(x)
  {
    if Truncate(x) < INT64_MIN then INT64_MIN
    else if Truncate(x) > INT64_MAX then INT64_MAX
    else Truncate(x)
  }

  /** `j.at(key)`. */
  function At(j: Option<Json>, key: string): Option<Json> {
    if j.Some? && j.value.Object? && key in j.value.members then Some(j.value.members[key])
    else None
  }

  function GetString(j: Option<Json>): Option<string> {
    if j.Some? && j.value.Str? then Some(j.value.s) else None
  }

  function GetInt64(j: Option<Json>): (r: Option<int>)
    ensures r.Some? ==> IsInt64(r.value)
  {
    match j
    case Some(Integer(n)) => Some(WrapInt64(n))
    case Some(Float(x)) => Some(DoubleToInt64(x))
    case _ => None
  }

  function GetDouble(j: Option<Json>): Option<real> {
    match j
    case Some(Integer(n)) => Some(ToDouble(n) as real)
    case Some(Float(x)) => Some(x)
    case _ => None
  }

  // ---------------------------------------------------------------- what a document holds

  /** `j` is an object with `v` under `key`. */
  predicate Member(j: Option<Json>, key: string, v: Json) {
    j.Some? && j.value.Object? && key in j.value.members && j.value.members[key] == v
  }

  /** `id` is the int64 that `x` without its fraction is, or the bound that `x` lies beyond. */
  predicate WholePart(x: real, id: int) {
    if x <= -9223372036854775809.0 then id == -0x8000_0000_0000_0000
    else if x >= 9223372036854775808.0 then id == 0x7FFF_FFFF_FFFF_FFFF
    else if x >= 0.0 then id as real <= x < id as real + 1.0
    else id as real - 1.0 < x <= id as real
  }

  /** `v` is read as the int64 `id`. */
  predicate HoldsId(v: Json, id: int) {
    match v
    case Integer(n) =>
      && -0x8000_0000_0000_0000 <= id <= 0x7FFF_FFFF_FFFF_FFFF
      && (id - n) % 0x1_0000_0000_0000_0000 == 0
    case Float(x) => WholePart(x, id)
    case _ => false
  }

  /** `v` is read as the double `x`. */
  predicate HoldsNumber(v: Json, x: real) {
    match v
    case Integer(n) => x == ToDouble(n) as real
    case Float(y) => x == y
    case _ => false
  }

  lemma WholePartIff(x: real, id: int)
    ensures WholePart(x, id) <==> DoubleToInt64(x) == id
  {
  }

  lemma WrapIff(n: int, id: int)
    ensures WrapInt64(n) == id <==> IsInt64(id) && (id - n) % 0x1_0000_0000_0000_0000 == 0
  {
    var r := WrapInt64(n);
    if IsInt64(id) && (id - n) % 0x1_0000_0000_0000_0000 == 0 {
      assert (r - n) - (id - n) == r - id;
      assert (r - id) % 0x1_0000_0000_0000_0000 == 0;
    }
  }

  /** Typed access: what `at(key).get<T>()` yields from which documents, and nothing otherwise. */
  lemma StringIff(j: Option<Json>, key: string, s: string)
    ensures GetString(At(j, key)) == Some(s) <==> Member(j, key, Str(s))
  {
  }

  lemma Int64Iff(j: Option<Json>, key: string, id: int)
    ensures GetInt64(At(j, key)) == Some(id) <==> exists v :: Member(j, key, v) && HoldsId(v, id)
  {
    if At(j, key).Some? {
      var v := At(j, key).value;
      assert Member(j, key, v);
      match v
      case Integer(n) => WrapIff(n, id);
      case Float(x) => WholePartIff(x, id);
      case _ =>
    }
  }

  lemma DoubleIff(j: Option<Json>, key: string, x: real)
    ensures GetDouble(At(j, key)) == Some(x)
       <==> exists v :: Member(j, key, v) && HoldsNumber(v, x)
  {
    if At(j, key).Some? { assert Member(j, key, At(j, key).value); }
  }
}
