/** The errors thrown along the data path and the app's coarse error taxonomy (Stocks/Network/AppError.swift). */
module AppErrors {

  /** URLError codes used on the data path (Foundation's raw values). */
  const BadServerResponse: int := -1011
  const NotConnectedToInternet: int := -1009
  const TimedOut: int := -1001

  /** CocoaError codes of the file operations behind the cache. */
  const FileReadNoSuchFile: int := 260
  const FileReadNoPermission: int := 257
  const FileWriteNoPermission: int := 513

  /** A raw Swift error as thrown, before any classification: its dynamic type and payload. */
  datatype Thrown =
    | URLError(code: int)
    | DecodingError(context: string)
    | CocoaError(code: int)
    | OtherError(description: string)

  datatype AppError =
    | Network(underlying: Thrown)
    | Decoding(underlying: Thrown)
    | Server(statusCode: int)
    | NoData
    | Cache(underlying: Thrown)
    | Unknown

  /** The case tag of an error, forgetting every payload. */
  datatype Kind = NetworkKind | DecodingKind | ServerKind | NoDataKind | CacheKind | UnknownKind

  function KindOf(e: AppError): Kind {
    match e
    case Network(_) => NetworkKind
    case Decoding(_) => DecodingKind
    case Server(_) => ServerKind
    case NoData => NoDataKind
    case Cache(_) => CacheKind
    case Unknown => UnknownKind
  }

  /** AppError's hand-written `==`: same tag, and for `server` the same status code;
      the underlying errors of `network`, `decoding` and `cache` are never compared. */
  predicate Equals(lhs: AppError, rhs: AppError)
    ensures Equals(lhs, rhs) <==>
      KindOf(lhs) == KindOf(rhs) && (lhs.Server? ==> lhs.statusCode == rhs.statusCode)
  {
    match (lhs, rhs)
    case (Network(_), Network(_)) => true
    case (Decoding(_), Decoding(_)) => true
    case (NoData, NoData) => true
    case (Unknown, Unknown) => true
    case (Cache(_), Cache(_)) => true
    case (Server(a), Server(b)) => a == b
    case _ => false
  }

  /** `AppError.map`: classify a thrown error by its dynamic type. */
  function Map(error: Thrown): (r: AppError)
    ensures r.Network? <==> error.URLError?
    ensures r.Decoding? <==> error.DecodingError?
    ensures r.Network? || r.Decoding? ==> r.underlying == error
    ensures !error.URLError? && !error.DecodingError? ==> r == Unknown
    ensures !r.Server? && !r.NoData? && !r.Cache?
  {
    match error
    case URLError(_) => Network(error)
    case DecodingError(_) => Decoding(error)
    case _ => Unknown
  }

  lemma PayloadIgnored(a: Thrown, b: Thrown)
    ensures Equals(Network(a), Network(b))
    ensures Equals(Decoding(a), Decoding(b))
    ensures Equals(Cache(a), Cache(b))
  {
  }

  lemma ServerEqualsIff(a: int, b: int)
    ensures Equals(Server(a), Server(b)) <==> a == b
  {
  }

  lemma DifferentKindsNeverEqual(lhs: AppError, rhs: AppError)
    requires KindOf(lhs) != KindOf(rhs)
    ensures !Equals(lhs, rhs)
  {
  }

  /** `==` is an equivalence relation on AppError. */
  lemma EqualsReflexive(e: AppError)
    ensures Equals(e, e)
  {
  }

  lemma EqualsSymmetric(a: AppError, b: AppError)
    ensures Equals(a, b) <==> Equals(b, a)
  {
  }

  lemma EqualsTransitive(a: AppError, b: AppError, c: AppError)
    requires Equals(a, b) && Equals(b, c)
    ensures Equals(a, c)
  {
  }

  /** Equality is coarser than structure: two network errors with different causes compare equal. */
  lemma EqualsCoarserThanIdentity()
    ensures Network(URLError(TimedOut)) != Network(URLError(NotConnectedToInternet))
    ensures Equals(Network(URLError(TimedOut)), Network(URLError(NotConnectedToInternet)))
  {
  }
}
