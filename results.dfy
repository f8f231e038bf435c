/** Option and Result wrappers, and the kinds of error the application reports. */
module Results {

  datatype Option<+T> = None | Some(value: T)

  /** The Go code wraps every error in a formatted message; the model keeps only its kind. */
  datatype Error =
    | BadDate        // the date key does not parse as YYMMDD
    | FutureDate     // the date key names a day after now
    | DecodeFailed   // a stored JSON value could not be decoded
    | WriteFailed    // a write transaction could not be committed
    | BucketExists   // bucket creation met an already existing bucket
    | OpenFailed     // the database file or its directory could not be opened
    | EncodeFailed   // a value could not be encoded as JSON (a NaN or infinite float)

  datatype Result<+T> = Ok(value: T) | Err(error: Error)

  /** The index of the first element of s that satisfies p, the search both the merge and setSummary perform. */
  function FirstIndex<T>(s: seq<T>, p: T -> bool): (r: Option<nat>)
    ensures r.Some? ==> r.value < |s| && p(s[r.value]) && forall j :: 0 <= j < r.value ==> !p(s[j])
    ensures r.None? <==> forall j :: 0 <= j < |s| ==> !p(s[j])
  {
    if s == [] then None
    else if p(s[0]) then Some(0)
    else match FirstIndex(s[1..], p)
      case None => None
      case Some(j) => Some(j + 1)
  }
}
