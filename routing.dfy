/** The postal-code matrix that picks the street-name backend whose identifiers
    the collections API expects, and the scan over it. */
module Routing {
  import opened Text

  const BRUSSELS := "BE.BRUSSELS.BRIC.ADM.STR"
  const FLANDERS := "https://data.vlaanderen.be/id/straatnaam"
  const WALLONIA := "geodata.wallonie.be/id/streetname"

  /** An inclusive postal-code range (a Ruby `Range` key) and its backend. */
  datatype Route = Route(low: int, high: int, backend: string)

  /** `Range#include?` on an integer. */
  predicate Includes(r: Route, n: int)
  {
    r.low <= n <= r.high
  }

  /** The matrix in insertion order, which is the order a Ruby hash enumerates. */
  const POSTAL_CODE_MATRIX: seq<Route> := [
    Route(1000, 1999, BRUSSELS),
    Route(2000, 3999, FLANDERS),
    Route(4000, 7999, WALLONIA),
    Route(8000, 9999, FLANDERS)
  ]

  /** The backend of the first route in `m` that includes `n`. */
  function FirstBackend(m: seq<Route>, n: int): Option<string>
  {
    if m == [] then None
    else if Includes(m[0], n) then Some(m[0].backend)
    else FirstBackend(m[1..], n)
  }

  function BackendFor(n: int): Option<string>
  {
    FirstBackend(POSTAL_CODE_MATRIX, n)
  }

  /** The backend found is that of the first range including `n`; there is none
      exactly when no range includes `n`. */
  lemma {:induction false} FirstBackendIsFirst(m: seq<Route>, n: int)
    ensures FirstBackend(m, n).None? <==> forall i :: 0 <= i < |m| ==> !Includes(m[i], n)
    ensures FirstBackend(m, n).Some? ==>
              exists i :: 0 <= i < |m| && Includes(m[i], n) && m[i].backend == FirstBackend(m, n).value
                          && forall j :: 0 <= j < i ==> !Includes(m[j], n)
  {
    if m != [] && !Includes(m[0], n) {
      FirstBackendIsFirst(m[1..], n);
      assert forall i :: 1 <= i < |m| ==> m[1..][i - 1] == m[i];
      if FirstBackend(m, n).Some? {
        var i :| 0 <= i < |m[1..]| && Includes(m[1..][i], n) && m[1..][i].backend == FirstBackend(m, n).value
                 && forall j :: 0 <= j < i ==> !Includes(m[1..][j], n);
        assert forall j :: 0 <= j < i + 1 ==> !Includes(m[j], n) by {
          forall j | 0 <= j < i + 1 ensures !Includes(m[j], n) {
            if j > 0 {
              assert m[j] == m[1..][j - 1];
            }
          }
        }
      }
    } else if m != [] {
      assert Includes(m[0], n);
    }
  }

  /** The `each` loop over the matrix with its early `return`: it returns what
      the scan specifies, the backend of the first range that includes `n`. */
  method LookupBackend(m: seq<Route>, n: int) returns (r: Option<string>)
    ensures r == FirstBackend(m, n)
  {
    var i := 0;
    while i < |m|
      invariant 0 <= i <= |m|
      invariant FirstBackend(m, n) == FirstBackend(m[i..], n)
    {
      if Includes(m[i], n) {
        return Some(m[i].backend);
      }
      assert m[i..][1..] == m[i + 1..];
      i := i + 1;
    }
    return None;
  }

  /** Every four-digit postal code lies in exactly one range of the matrix, and
      no other code lies in any. */
  lemma MatrixPartitions(n: int)
    ensures 1000 <= n <= 9999 ==>
              exists i :: 0 <= i < |POSTAL_CODE_MATRIX| && Includes(POSTAL_CODE_MATRIX[i], n)
    ensures forall i, j :: 0 <= i < j < |POSTAL_CODE_MATRIX| ==>
              !(Includes(POSTAL_CODE_MATRIX[i], n) && Includes(POSTAL_CODE_MATRIX[j], n))
    ensures !(1000 <= n <= 9999) ==>
              forall i :: 0 <= i < |POSTAL_CODE_MATRIX| ==> !Includes(POSTAL_CODE_MATRIX[i], n)
  {
    if 1000 <= n <= 1999 {
      assert Includes(POSTAL_CODE_MATRIX[0], n);
    } else if 2000 <= n <= 3999 {
      assert Includes(POSTAL_CODE_MATRIX[1], n);
    } else if 4000 <= n <= 7999 {
      assert Includes(POSTAL_CODE_MATRIX[2], n);
    } else if 8000 <= n <= 9999 {
      assert Includes(POSTAL_CODE_MATRIX[3], n);
    }
  }

  /** Brussels codes go to the Brussels register, Walloon codes to the Walloon
      one, the rest of 1000..9999 to the Flemish one; other codes have no backend. */
  lemma BackendMapping(n: int)
    ensures BackendFor(n) == Some(BRUSSELS) <==> 1000 <= n <= 1999
    ensures BackendFor(n) == Some(FLANDERS) <==> 2000 <= n <= 3999 || 8000 <= n <= 9999
    ensures BackendFor(n) == Some(WALLONIA) <==> 4000 <= n <= 7999
    ensures BackendFor(n).None? <==> n < 1000 || n > 9999
  {
    var m := POSTAL_CODE_MATRIX;
    assert m[1..] == [m[1], m[2], m[3]];
    assert m[1..][1..] == [m[2], m[3]];
    assert m[1..][1..][1..] == [m[3]];
    assert m[1..][1..][1..][1..] == [];
    assert FirstBackend(m[1..][1..][1..], n) == if 8000 <= n <= 9999 then Some(FLANDERS) else None;
    assert FirstBackend(m[1..][1..], n) == if 4000 <= n <= 7999 then Some(WALLONIA)
                                           else FirstBackend(m[1..][1..][1..], n);
    assert FirstBackend(m[1..], n) == if 2000 <= n <= 3999 then Some(FLANDERS)
                                      else FirstBackend(m[1..][1..], n);
    assert |BRUSSELS| != |FLANDERS| && |BRUSSELS| != |WALLONIA| && |FLANDERS| != |WALLONIA|;
    assert BackendFor(n) == if 1000 <= n <= 1999 then Some(BRUSSELS)
                            else if 2000 <= n <= 3999 then Some(FLANDERS)
                            else if 4000 <= n <= 7999 then Some(WALLONIA)
                            else if 8000 <= n <= 9999 then Some(FLANDERS)
                            else None;
  }
}
