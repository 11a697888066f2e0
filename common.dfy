/** Shared vocabulary of the inventory model: optional values, the outcome
    tags that replace the HTTP statuses of the controllers, and record ids. */
module Common {

  datatype Option<+T> = None | Some(value: T)

  function MapOption<T, U>(o: Option<T>, f: T -> U): Option<U>
  {
    match o
    case None => None
    case Some(v) => Some(f(v))
  }

  /** What a controller answers, in place of its HTTP status code. */
  datatype Status =
    | Ok                 // 200 / 201
    | NotFound           // 404: the id does not resolve
    | Duplicate          // 400: "... already exists"
    | Conflict           // 400: "Cannot delete ... with associated products"
    | InsufficientStock  // 400: "Not enough stock"
    | AlreadyDeleted     // 400: "Product is already deleted"
    | Forbidden          // 403: a user asking for someone else's record
    | ServerError        // 500: a rejected save, a unique-index violation or a thrown exception

  /** A document id (a MongoDB ObjectId). Every collection draws from one counter. */
  type Id = nat

  /** The reply the three hard-delete handlers build once `findByIdAndDelete`
      has run, AS WRITTEN: when nothing was deleted they evaluate
      `error.message` with no `error` in scope, so a ReferenceError is thrown
      before the 404 is sent and the catch block answers 500. */
  function DeleteReplyAsWritten(deletedSomething: bool): (s: Status)
    ensures s == Ok || s == ServerError
    ensures s == ServerError <==> !deletedSomething
  {
    if deletedSomething then Ok else ServerError
  }
}

/** String helpers for the Mongoose `trim` setter and the Category URL validator. */
module Strings {

  /** The white-space characters JavaScript's String.prototype.trim removes
      (the ASCII ones, no-break space, the line and paragraph separators and
      the byte-order mark; the other Unicode space separators are left out). */
  predicate IsSpace(c: char)
  {
    c == ' ' || c == '\t' || c == '\n' || c == '\r' || c == '\U{0B}' || c == '\U{0C}'
    || c == '\U{A0}' || c == '\U{2028}' || c == '\U{2029}' || c == '\U{FEFF}'
  }

  /** The characters `.` in a JavaScript regular expression does not match. */
  predicate IsLineTerminator(c: char)
  {
    c == '\n' || c == '\r' || c == '\U{2028}' || c == '\U{2029}'
  }

  function TrimStart(s: string): (r: string)
    ensures |r| <= |s|
  {
    if s != [] && IsSpace(s[0]) then TrimStart(s[1..]) else s
  }

  function TrimEnd(s: string): (r: string)
    ensures |r| <= |s|
  {
    if s != [] && IsSpace(s[|s| - 1]) then TrimEnd(s[..|s| - 1]) else s
  }

  /** `trim: true`, the setter every trimmed schema path runs on a value. */
  function Trim(s: string): (r: string)
    ensures |r| <= |s|
  {
    TrimEnd(TrimStart(s))
  }

  /** Everything in `s` before index `a` and from index `b` on is white space. */
  predicate SpaceOutside(s: string, a: nat, b: nat)
    requires a <= b <= |s|
  {
    (forall i :: 0 <= i < a ==> IsSpace(s[i])) && (forall i :: b <= i < |s| ==> IsSpace(s[i]))
  }

  lemma {:induction false} TrimStartCuts(s: string)
    ensures var r := TrimStart(s);
      && r == s[|s| - |r|..]
      && (r == [] || !IsSpace(r[0]))
      && SpaceOutside(s, |s| - |r|, |s|)
  {
    if s != [] && IsSpace(s[0]) {
      TrimStartCuts(s[1..]);
    }
  }

  lemma {:induction false} TrimEndCuts(s: string)
    ensures var r := TrimEnd(s);
      && r == s[..|r|]
      && (r == [] || !IsSpace(r[|r| - 1]))
      && SpaceOutside(s, 0, |r|)
  {
    if s != [] && IsSpace(s[|s| - 1]) {
      TrimEndCuts(s[..|s| - 1]);
    }
  }

  /** What the setter stores: a contiguous piece of the input that neither
      starts nor ends with white space, everything cut off on either side
      being white space. */
  lemma TrimCuts(s: string)
    ensures exists a, b :: 0 <= a <= b <= |s| && Trim(s) == s[a..b] && SpaceOutside(s, a, b)
    ensures Trim(s) == [] || (!IsSpace(Trim(s)[0]) && !IsSpace(Trim(s)[|Trim(s)| - 1]))
  {
    var t := TrimStart(s);
    TrimStartCuts(s);
    TrimEndCuts(t);
    var a := |s| - |t|;
    assert Trim(s) == s[a..a + |Trim(s)|] && SpaceOutside(s, a, a + |Trim(s)|);
  }

  lemma {:induction false} TrimStartOfClean(s: string)
    requires s == [] || !IsSpace(s[0])
    ensures TrimStart(s) == s
  {
  }

  lemma {:induction false} TrimEndOfClean(s: string)
    requires s == [] || !IsSpace(s[|s| - 1])
    ensures TrimEnd(s) == s
  {
  }

  /** Trimming twice is trimming once: a value the setter stored is stored
      unchanged when it is written back. */
  lemma TrimIdempotent(s: string)
    ensures Trim(Trim(s)) == Trim(s)
  {
    var r := Trim(s);
    TrimCuts(s);
    if r != [] {
      TrimStartOfClean(r);
      TrimEndOfClean(r);
    }
  }

  /** `/^https?:\/\/.+/.test(v)`: the scheme, then at least one character
      that `.` matches. */
  /** JavaScript's `.length`, which `minlength` tests: the number of UTF-16
      code units, two for a character outside the Basic Multilingual Plane. */
  function JsLength(s: string): (n: nat)
    ensures |s| <= n <= 2 * |s|
  {
    if s == [] then 0 else (if s[0] as int >= 0x1_0000 then 2 else 1) + JsLength(s[1..])
  }

  predicate IsHttpUrl(v: string)
  {
    (|v| > 7 && v[..7] == "http://" && !IsLineTerminator(v[7]))
    || (|v| > 8 && v[..8] == "https://" && !IsLineTerminator(v[8]))
  }
}
