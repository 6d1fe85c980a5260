/** Shared vocabulary of the four services: optional values, the outcome of an
    awaited upstream call, and decimal digit characters. */
module Base {

  datatype Option<+T> = None | Some(value: T)

  /** What an awaited HTTP call yields: the payload it resolved with, or the
      error it threw (timeout, refused connection and non-2xx status alike). */
  datatype Outcome<+T> = Ok(value: T) | Err

  /** axios resolves a request whose status is in [200, 300) with its body and
      rejects every other status. */
  function FromStatus<T>(status: int, body: T): (r: Outcome<T>)
    ensures r.Ok? <==> 200 <= status < 300
    ensures r.Ok? ==> r.value == body
  {
    if 200 <= status < 300 then Ok(body) else Err
  }

  type Digit = d: int | 0 <= d <= 9

  predicate IsDigitChar(c: char) {
    '0' <= c <= '9'
  }

  /** The one-character decimal rendering of a digit. */
  function DigitChar(d: Digit): (c: char)
    ensures IsDigitChar(c)
    ensures c as int - '0' as int == d
  {
    ('0' as int + d) as char
  }

  predicate AllDigits(s: string) {
    forall i :: 0 <= i < |s| ==> IsDigitChar(s[i])
  }
}
