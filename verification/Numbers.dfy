/** Number types and limits that several modules share. */
module Numbers {
  type U16 = n: int | 0 <= n < 0x1_0000

  function Abs(v: int): nat {
    if v < 0 then -v else v
  }

  function Limit(v: int, lo: int, hi: int): (r: int)
    requires lo <= hi
    ensures lo <= r <= hi && (lo <= v <= hi ==> r == v)
  {
    if v < lo then lo else if v > hi then hi else v
  }

  function Clamp(v: real, lo: real, hi: real): (r: real)
    requires lo <= hi
    ensures lo <= r <= hi && (lo <= v <= hi ==> r == v)
  {
    if v < lo then lo else if v > hi then hi else v
  }
}
