/**
  The burn-chain error taxonomy: one flat, closed sum type that either names
  a condition local to the burn-chain layer (a leaf) or wraps the error of a
  collaborator (the chain driver, the database, the filesystem or the
  operation parser) without altering it.

  The collaborators' error types are not part of this model. They are the
  type parameters `B` (driver), `D` (database), `I` (filesystem I/O) and
  `O` (operation processing). Their `description` and the writes their
  `Display::fmt` makes are supplied as functions in a `Collaborators` record,
  about which nothing is assumed: every property below holds for any such
  functions.
 */
module BurnchainError {
  import opened BurnchainTypes
  import opened Formatting

  /** The error type. `Bitcoin` and `DownloadError` carry the same driver
      error type and are nonetheless distinct variants. */
  datatype Error<B, D, I, O> =
    | UnsupportedBurnchain
    | Bitcoin(btc: B)
    | DBError(db: D)
    | DownloadError(download: B)
    | ParseError
    | ThreadChannelError
    | MissingHeaders
    | FSError(fs: I)
    | OpError(op: O)

  /** The variant tag of an `Error`, without its payload. */
  datatype ErrorKind =
    | UnsupportedBurnchainKind
    | BitcoinKind
    | DBErrorKind
    | DownloadErrorKind
    | ParseErrorKind
    | ThreadChannelErrorKind
    | MissingHeadersKind
    | FSErrorKind
    | OpErrorKind

  function KindOf<B, D, I, O>(e: Error<B, D, I, O>): ErrorKind {
    match e
    case UnsupportedBurnchain => UnsupportedBurnchainKind
    case Bitcoin(_) => BitcoinKind
    case DBError(_) => DBErrorKind
    case DownloadError(_) => DownloadErrorKind
    case ParseError => ParseErrorKind
    case ThreadChannelError => ThreadChannelErrorKind
    case MissingHeaders => MissingHeadersKind
    case FSError(_) => FSErrorKind
    case OpError(_) => OpErrorKind
  }

  /** The conditions local to the burn-chain layer: they carry no payload. */
  const LeafKinds: set<ErrorKind> :=
    {UnsupportedBurnchainKind, ParseErrorKind, MissingHeadersKind, ThreadChannelErrorKind}

  /** The fixed human-readable text of each leaf condition. */
  const LeafTexts: map<ErrorKind, string> := map[
    UnsupportedBurnchainKind := "Unsupported burnchain",
    ParseErrorKind := "Parse error",
    MissingHeadersKind := "Missing block headers",
    ThreadChannelErrorKind := "Error in thread channel"]

  /** A wrapped collaborator error seen through the `&dyn Error` of `cause`:
      the concrete value, tagged only with its error type. The tag says which
      type it is, not which outer variant held it. */
  datatype Inner<B, D, I, O> =
    | DriverError(btc: B)
    | DatabaseError(db: D)
    | IoError(io: I)
    | OperationError(op: O)

  /** What a collaborator error type provides: its `description()` text, and
      the strings its `Display::fmt` writes to a formatter, in call order. */
  datatype ErrorText<!T> = ErrorText(description: T -> string, fmt: T -> seq<string>)

  /** The texts of all four collaborator error types. */
  datatype Collaborators<!B, !D, !I, !O> = Collaborators(
    driver: ErrorText<B>,
    database: ErrorText<D>,
    io: ErrorText<I>,
    operation: ErrorText<O>)

  /** `description()` called on a wrapped error, dispatched on its type. */
  function InnerDescription<B, D, I, O>(env: Collaborators<B, D, I, O>, c: Inner<B, D, I, O>): string {
    match c
    case DriverError(b) => env.driver.description(b)
    case DatabaseError(d) => env.database.description(d)
    case IoError(i) => env.io.description(i)
    case OperationError(o) => env.operation.description(o)
  }

  /** The writes a wrapped error's own `Display::fmt` makes, dispatched on its type. */
  function InnerFmt<B, D, I, O>(env: Collaborators<B, D, I, O>, c: Inner<B, D, I, O>): seq<string> {
    match c
    case DriverError(b) => env.driver.fmt(b)
    case DatabaseError(d) => env.database.fmt(d)
    case IoError(i) => env.io.fmt(i)
    case OperationError(o) => env.operation.fmt(o)
  }

  /** The text a wrapped error's own `Display` produces. */
  function InnerDisplay<B, D, I, O>(env: Collaborators<B, D, I, O>, c: Inner<B, D, I, O>): string {
    Concat(InnerFmt(env, c))
  }

  /** `Error::cause`: nothing for a leaf condition, otherwise the wrapped
      error itself. */
  function Cause<B, D, I, O>(e: Error<B, D, I, O>): (r: Option<Inner<B, D, I, O>>)
    ensures r.None? <==> KindOf(e) in LeafKinds
  {
    match e
    case UnsupportedBurnchain => None
    case Bitcoin(b) => Some(DriverError(b))
    case DBError(d) => Some(DatabaseError(d))
    case DownloadError(b) => Some(DriverError(b))
    case ParseError => None
    case MissingHeaders => None
    case ThreadChannelError => None
    case FSError(i) => Some(IoError(i))
    case OpError(o) => Some(OperationError(o))
  }

  /** `Error::description`: the fixed text of a leaf condition, otherwise the
      description of the wrapped error. */
  function Description<B, D, I, O>(env: Collaborators<B, D, I, O>, e: Error<B, D, I, O>): (r: string)
    ensures Cause(e).None? ==> KindOf(e) in LeafTexts && r == LeafTexts[KindOf(e)]
    ensures Cause(e).Some? ==> r == InnerDescription(env, Cause(e).value)
  {
    match e
    case UnsupportedBurnchain => "Unsupported burnchain"
    case Bitcoin(b) => env.driver.description(b)
    case DBError(d) => env.database.description(d)
    case DownloadError(b) => env.driver.description(b)
    case ParseError => "Parse error"
    case MissingHeaders => "Missing block headers"
    case ThreadChannelError => "Error in thread channel"
    case FSError(i) => env.io.description(i)
    case OpError(o) => env.operation.description(o)
  }

  /** `Display::fmt` writing into `f`. A leaf writes its description in one
      `write_str`; a wrapping variant hands `f` to the wrapped error's own
      `Display::fmt`. The result is `f` after the writes. */
  function Fmt<B, D, I, O>(env: Collaborators<B, D, I, O>, e: Error<B, D, I, O>, f: Formatter): (r: Formatter)
    ensures Cause(e).None? ==> r.written == f.written + Description(env, e)
    ensures Cause(e).Some? ==> r.written == f.written + InnerDisplay(env, Cause(e).value)
  {
    match e
    case UnsupportedBurnchain => WriteStr(f, Description(env, e))
    case Bitcoin(b) => WriteAll(f, env.driver.fmt(b))
    case DBError(d) => WriteAll(f, env.database.fmt(d))
    case DownloadError(b) => WriteAll(f, env.driver.fmt(b))
    case ParseError => WriteStr(f, Description(env, e))
    case MissingHeaders => WriteStr(f, Description(env, e))
    case ThreadChannelError => WriteStr(f, Description(env, e))
    case FSError(i) => WriteAll(f, env.io.fmt(i))
    case OpError(o) => WriteAll(f, env.operation.fmt(o))
  }

  /** `to_string()`: the text `Display` writes into an empty formatter. */
  function Display<B, D, I, O>(env: Collaborators<B, D, I, O>, e: Error<B, D, I, O>): string {
    Fmt(env, e, Formatter("")).written
  }

  // ---------------------------------------------------------------------
  // Properties
  // ---------------------------------------------------------------------

  /** The leaf conditions are exactly the four payload-free variants, and the
      fixed-text table covers exactly those. */
  lemma LeafKindsAreTheTextedKinds()
    ensures LeafTexts.Keys == LeafKinds
    ensures |LeafKinds| == 4
  {
  }

  /** The exact text of each leaf condition. */
  lemma LeafDescriptions<B, D, I, O>(env: Collaborators<B, D, I, O>)
    ensures Description(env, UnsupportedBurnchain) == "Unsupported burnchain"
    ensures Description(env, ParseError) == "Parse error"
    ensures Description(env, MissingHeaders) == "Missing block headers"
    ensures Description(env, ThreadChannelError) == "Error in thread channel"
  {
  }

  /** Each wrapping variant's cause is the very error it wraps. */
  lemma CauseIsWrappedError<B, D, I, O>(b: B, d: D, i: I, o: O)
    ensures Cause<B, D, I, O>(Bitcoin(b)) == Some(DriverError(b))
    ensures Cause<B, D, I, O>(DBError(d)) == Some(DatabaseError(d))
    ensures Cause<B, D, I, O>(DownloadError(b)) == Some(DriverError(b))
    ensures Cause<B, D, I, O>(FSError(i)) == Some(IoError(i))
    ensures Cause<B, D, I, O>(OpError(o)) == Some(OperationError(o))
  {
  }

  /** No causal information is lost: an error is determined by its variant
      tag together with its cause. */
  lemma KindAndCauseDetermineError<B, D, I, O>(e1: Error<B, D, I, O>, e2: Error<B, D, I, O>)
    requires KindOf(e1) == KindOf(e2)
    requires Cause(e1) == Cause(e2)
    ensures e1 == e2
  {
  }

  /** A leaf condition's displayed text names it unambiguously: two leaf
      errors that display the same text are the same error. */
  lemma LeafDisplayIdentifiesVariant<B, D, I, O>(
    env: Collaborators<B, D, I, O>, e1: Error<B, D, I, O>, e2: Error<B, D, I, O>)
    requires Cause(e1).None? && Cause(e2).None?
    requires Display(env, e1) == Display(env, e2)
    ensures e1 == e2
  {
    // Display of a leaf is its description written into an empty formatter.
    assert Description(env, e1) == Description(env, e2) by {
      assert "" + Description(env, e1) == Description(env, e1);
      assert "" + Description(env, e2) == Description(env, e2);
    }
  }

  /** `Bitcoin` and `DownloadError` around the same driver error are unequal
      errors with the same cause, description and displayed text. */
  lemma BitcoinAndDownloadShareCause<B, D, I, O>(env: Collaborators<B, D, I, O>, b: B)
    ensures Error<B, D, I, O>.Bitcoin(b) != Error<B, D, I, O>.DownloadError(b)
    ensures Cause<B, D, I, O>(Bitcoin(b)) == Cause(DownloadError(b))
    ensures Description(env, Bitcoin(b)) == Description(env, DownloadError(b))
    ensures Display(env, Bitcoin(b)) == Display(env, DownloadError(b))
  {
  }

  /** A collaborator error type whose `Display` writes its description. */
  ghost predicate Coherent<T(!new)>(t: ErrorText<T>) {
    forall x :: Concat(t.fmt(x)) == t.description(x)
  }

  /** If every collaborator displays its own description, so does every
      burn-chain error: wrapping never adds or drops text. */
  lemma DisplayIsDescriptionWhenCollaboratorsAre<B(!new), D(!new), I(!new), O(!new)>(
    env: Collaborators<B, D, I, O>, e: Error<B, D, I, O>)
    requires Coherent(env.driver) && Coherent(env.database)
    requires Coherent(env.io) && Coherent(env.operation)
    ensures Display(env, e) == Description(env, e)
  {
  }
}
