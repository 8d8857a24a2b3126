/** The two uses of fmt.Sprintf whose text the validators store and compare. */
module Format {

  /** The decimal digits of n, as "%d" prints a non-negative int. */
  function Decimal(n: nat): (s: string)
    ensures |s| >= 1
    ensures forall i :: 0 <= i < |s| ==> '0' <= s[i] <= '9'
    decreases n
  {
    var d := [('0' as int + n % 10) as char];
    if n < 10 then d else Decimal(n / 10) + d
  }

  /** "page %d zone %d": the context string stored for a zone target. */
  function ZoneContext(page: nat, zone: nat): (s: string)
    ensures |s| > 0 && s[0] == 'p'
  {
    "page " + Decimal(page) + " zone " + Decimal(zone)
  }
}
