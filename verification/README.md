# Burn-chain layer: identifiers and error taxonomy

A Dafny model of the burn-chain module of the Stacks blockchain node
(`src/burnchains/mod.rs`). The module gives the facts observed on a burn
chain (such as Bitcoin) a chain-agnostic shape. Its one piece of behaviour is
the error type that burn-chain code returns. That type is a closed sum with
nine variants. Four are conditions local to the layer (the leaves). Five wrap
an error from a collaborator: the chain driver, the database, the filesystem
or the operation parser. Three total functions are defined over it:
`cause`, `description` and `Display::fmt`.

The model has three modules:

- `BurnchainTypes` (`burnchain_types.dfy`) covers the fixed-width identifiers
  `Txid` and `BurnchainHeaderHash` (32 bytes each) and `MagicBytes` (2 bytes),
  with their size constants and the mainnet magic "id". It also holds the
  per-chain constants `StableConfirmations` and `ConsensusHashLifetime`, and
  the transaction, block, configuration and view records as plain datatypes.
  The transaction and block records are generic over the address type `A`
  and the key type `K`. The code enforces no invariant on these records, so
  the model claims none.
- `Formatting` (`formatting.dfy`) is the output side of Rust's
  `fmt::Formatter`: a sink that collects `write_str` calls in order.
- `BurnchainError` (`burnchain_error.dfy`) holds the error type, `Cause`,
  `Description` and `Fmt` (`Display::fmt`), and the lemmas about them.

The collaborators' error types are type parameters: `B` for the driver,
`D` for the database, `I` for filesystem I/O and `O` for operation
processing. Their `description()` text and the writes their own
`Display::fmt` makes are passed in as functions in a `Collaborators` record.
Nothing is assumed about those functions, so every property holds for any
collaborator. This is what "pass-through" means here. A cause seen through
Rust's `&dyn Error` is modelled as `Inner`. `Inner` is tagged with the wrapped
value's error type but not with the outer variant that held it.

Two points about `src/burnchains/mod.rs` shape the model:

- A wrapping variant displays the wrapped error's own `Display` output
  (mod.rs:187-189, 193-194), not its `description()` (mod.rs:217-219,
  223-224). `DisplayIsDescriptionWhenCollaboratorsAre` states when the two
  agree.
- `StableConfirmations` and `ConsensusHashLifetime` are one-variant enums
  whose discriminant is the value (mod.rs:75-87). Each is modelled with a
  `Discriminant()`.

Equality of two `Error` values in this model is structural identity: the
same variant tag and the same payload, which is what a `match` tells apart.
The Rust type derives only `Debug` and has no `==` of its own.

## Model

| member | source | states |
|---|---|---|
| BurnchainError.Cause | src/burnchains/mod.rs:200-211 | an error has no cause exactly when its variant is one of the four leaves (UnsupportedBurnchain, ParseError, MissingHeaders, ThreadChannelError) |
| BurnchainError.CauseIsWrappedError | src/burnchains/mod.rs:200-211 | the cause of each of the five wrapping variants is the very error value it wraps, tagged with that error's type |
| BurnchainError.KindAndCauseDetermineError | src/burnchains/mod.rs:162-211 | no causal information is lost: two errors with the same variant and the same cause are structurally identical (same variant tag, same payload) |
| BurnchainError.Description | src/burnchains/mod.rs:214-226 | a leaf's description is its entry in the fixed-text table; a wrapping variant's description is the description of its cause |
| BurnchainError.LeafKindsAreTheTextedKinds | src/burnchains/mod.rs:214-226 | the fixed-text table has an entry for exactly the four leaf variants and no others |
| BurnchainError.LeafDescriptions | src/burnchains/mod.rs:216-222 | the leaf texts are exactly "Unsupported burnchain", "Parse error", "Missing block headers" and "Error in thread channel" |
| BurnchainError.Fmt | src/burnchains/mod.rs:183-196 | displaying a leaf appends exactly its description to what the formatter held; displaying a wrapping variant appends exactly the text the cause's own Display writes, with nothing added or removed |
| Formatting.WriteAll | src/burnchains/mod.rs:187-194 | a formatter handed to a sequence of writes keeps its earlier contents and gains exactly the concatenation of those writes, in order |
| BurnchainError.LeafDisplayIdentifiesVariant | src/burnchains/mod.rs:184-196 | two leaf errors whose displayed texts are equal are the same variant, so a logged leaf text names its variant |
| BurnchainError.BitcoinAndDownloadShareCause | src/burnchains/mod.rs:162-226 | Bitcoin(b) and DownloadError(b) are structurally distinct errors (different variant tags), yet they have the same cause, the same description and the same displayed text |
| BurnchainError.DisplayIsDescriptionWhenCollaboratorsAre | src/burnchains/mod.rs:184-226 | if every collaborator's Display writes its own description, then every burn-chain error displays exactly its description |
| BurnchainTypes.IdentifierWidths | src/burnchains/mod.rs:38-50 | every Txid and BurnchainHeaderHash holds exactly TXID_ENCODED_SIZE and BURNCHAIN_HEADER_HASH_ENCODED_SIZE bytes, and both constants are 32 |
| BurnchainTypes.MainnetMagic | src/burnchains/mod.rs:52-58 | every MagicBytes value holds MAGIC_BYTES_LENGTH = 2 bytes, and the mainnet magic is [105, 100], which reads as ASCII "id" |
| BurnchainTypes.BitcoinChainConstants | src/burnchains/mod.rs:75-87 | the Bitcoin stable-confirmation depth is 7 and the Bitcoin consensus-hash lifetime is 24 |

## Left out

- Collaborator error types (`bitcoin::Error`, `util::db::Error`, `io::Error`, `operations::Error`) are not part of this model. They are type parameters, and their texts are supplied functions.
- BurnchainError.Fmt: models only the text written. The formatter holds no width, fill, precision or alternate flags, so a wrapped error's writes depend on its value alone; every property holds for any one fixed flag setting, since the collaborators' writes are arbitrary functions. It also does not model the `fmt::Result` that a failing output sink would return, because the sink is I/O outside this module.
- The serde derives and the macros `impl_array_newtype!`, `impl_array_hexstring_fmt!` and `impl_byte_array_newtype!` are not part of this model. Their bodies are defined elsewhere, so hex formatting, byte ordering, serialization round trips and wrong-length rejection are not claimed.
- The `PublicKey`, `PrivateKey` and `Address` traits are declared only as records of operations, with no contracts. Their implementations are cryptography and address codecs defined elsewhere.
- The module does not check the multisig threshold (`num_required` against the number of keys), the parent-hash linkage of blocks, a non-zero quota denominator, or that the stable height is at most the tip height. None of these is claimed.
- `ConsensusHash` is defined outside this module. `BurnchainView` takes it as a type parameter.
- `usize` is taken as 64 bits wide. No arithmetic is done on any of the integer fields.
- The submodules `bitcoin`, `indexer` and `burnchain` are not part of this model. The driver, database, filesystem and thread-channel behaviour they contain is I/O or concurrency.
- The `&str` lifetimes of `description` and the `Debug` derive are not modelled.
