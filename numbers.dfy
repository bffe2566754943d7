/** Numbers as the tracker reads and rounds them. JavaScript doubles are modelled as
    mathematical reals; `NaN` is modelled as `None` wherever it can arise. */
module Numbers {
  import opened Wrappers

  /** A free-text numeric field of the profile (`age`, `height`, `weight`, `goalWeight`,
      `bodyFat`, ...) classified by how the program reads it: the empty string, a numeral
      with the value it denotes, or any other text. */
  datatype Text = Blank | Num(value: real) | Word(word: string)

  /** `parseFloat(t)`; `None` stands for `NaN`. */
  function ParseFloat(t: Text): (r: Option<real>)
    ensures r.Some? <==> t.Num?
  {
    if t.Num? then Some(t.value) else None
  }

  /** `parseInt(t)`: the integer part of a numeral; `None` stands for `NaN`. */
  function ParseInt(t: Text): (r: Option<int>)
    ensures r.Some? <==> t.Num?
    ensures r.Some? ==> Abs(r.value as real) <= Abs(t.value) < Abs(r.value as real) + 1.0
  {
    if t.Num? then Some(Trunc(t.value)) else None
  }

  /** `Number(t)`, and equally `parseFloat(t || '0')`: the empty string reads as 0, which a
      bare `parseFloat` would read as `NaN`. */
  function NumberOf(t: Text): (r: Option<real>)
    ensures t.Blank? ==> r == Some(0.0)
    ensures t.Word? <==> r.None?
  {
    match t
    case Blank => Some(0.0)
    case Num(v) => Some(v)
    case Word(_) => None
  }

  function Abs(x: real): (r: real)
    ensures r >= 0.0 && (r == x || r == -x)
  {
    if x < 0.0 then -x else x
  }

  function Min(x: real, y: real): (r: real)
    ensures r <= x && r <= y && (r == x || r == y)
  {
    if x <= y then x else y
  }

  function Max(x: real, y: real): (r: real)
    ensures r >= x && r >= y && (r == x || r == y)
  {
    if x >= y then x else y
  }

  /** `Math.trunc`: drops the fractional part, rounding toward zero. */
  function Trunc(x: real): (r: int)
    ensures Abs(r as real) <= Abs(x) < Abs(r as real) + 1.0
    ensures x >= 0.0 ==> r >= 0
    ensures x < 0.0 ==> r <= 0
  {
    if x >= 0.0 then x.Floor else -((-x).Floor)
  }

  /** `Math.round`: the nearest integer, halves rounded up. */
  function Round(x: real): (r: int)
    ensures x - 0.5 < r as real <= x + 0.5
  {
    (x + 0.5).Floor
  }

  /** `Math.round(x * 10) / 10`: one decimal place. */
  function RoundTenth(x: real): (r: real)
    ensures x - 0.05 < r <= x + 0.05
  {
    Round(x * 10.0) as real / 10.0
  }

  lemma RoundMonotone(x: real, y: real)
    requires x <= y
    ensures Round(x) <= Round(y)
  {
  }
}
