/**
  The chain-agnostic data shapes of the burn-chain layer: fixed-width
  identifiers, the network magic, the per-chain constants, and the
  transaction, block, configuration and view records.

  The records are plain carriers. The transaction and block records are
  generic over the address type `A` and the key type `K` of the active
  cryptosystem, as in `src/burnchains/mod.rs`, and nothing here enforces an
  invariant on any record because that file enforces none.
 */
module BurnchainTypes {

  // ---------------------------------------------------------------------
  // Machine integer widths of the Rust fields (`usize` is taken as 64 bits)
  // ---------------------------------------------------------------------

  type u8 = x: int | 0 <= x < 0x100
  type u32 = x: int | 0 <= x < 0x1_0000_0000
  type u64 = x: int | 0 <= x < 0x1_0000_0000_0000_0000
  type usize = u64

  // ---------------------------------------------------------------------
  // Fixed-width identifiers
  // ---------------------------------------------------------------------

  /** Encoded width of a transaction id, declared as a `u32`. */
  const TXID_ENCODED_SIZE: u32 := 32

  /** Encoded width of a burn-chain block header hash, declared as a `u32`. */
  const BURNCHAIN_HEADER_HASH_ENCODED_SIZE: u32 := 32

  /** Width of the network magic, declared as a `usize`. */
  const MAGIC_BYTES_LENGTH: usize := 2

  /** The Rust array type `[u8; 32]`: a byte sequence of exactly 32 elements. */
  type Bytes32 = s: seq<u8> | |s| == 32 witness seq(32, _ => 0)

  /** The Rust array type `[u8; MAGIC_BYTES_LENGTH]`. */
  type MagicArray = s: seq<u8> | |s| == MAGIC_BYTES_LENGTH as int witness [0, 0]

  /** Transaction id: a newtype over a 32-byte array; equality is byte equality. */
  datatype Txid = Txid(bytes: Bytes32)

  /** Block header hash: a distinct newtype over a 32-byte array. */
  datatype BurnchainHeaderHash = BurnchainHeaderHash(bytes: Bytes32)

  /** A 2-byte network discriminator; its mainnet value is "id". */
  datatype MagicBytes = MagicBytes(bytes: MagicArray)

  /** The mainnet magic, the two ASCII bytes of "id". */
  const BLOCKSTACK_MAGIC_MAINNET: MagicBytes := MagicBytes([105, 100])

  /** The identifier newtypes have the width their encoded-size constants declare. */
  lemma IdentifierWidths(t: Txid, h: BurnchainHeaderHash)
    ensures TXID_ENCODED_SIZE == 32 && BURNCHAIN_HEADER_HASH_ENCODED_SIZE == 32
    ensures |t.bytes| == TXID_ENCODED_SIZE as int
    ensures |h.bytes| == BURNCHAIN_HEADER_HASH_ENCODED_SIZE as int
  {
  }

  /** Every magic value is exactly `MAGIC_BYTES_LENGTH` = 2 bytes, and the
      mainnet magic is the bytes 105, 100, which read as "id". */
  lemma MainnetMagic(m: MagicBytes)
    ensures MAGIC_BYTES_LENGTH == 2 && |m.bytes| == MAGIC_BYTES_LENGTH as int
    ensures BLOCKSTACK_MAGIC_MAINNET.bytes == [105, 100]
    ensures BLOCKSTACK_MAGIC_MAINNET.bytes == ['i' as int, 'd' as int]
  {
  }

  // ---------------------------------------------------------------------
  // Per-chain constants
  // ---------------------------------------------------------------------

  /** Input script schemes; one variant per supported redemption form. */
  datatype BurnchainInputType = BitcoinInput | BitcoinSegwitP2SHInput

  /** Depth after which a burn-chain block is treated as final, per chain.
      The Rust enum carries the value as its discriminant. */
  datatype StableConfirmations = BitcoinConfirmations {
    function Discriminant(): u32 {
      match this
      case BitcoinConfirmations => 7
    }
  }

  /** How many blocks a consensus hash stays valid for, per chain. */
  datatype ConsensusHashLifetime = BitcoinLifetime {
    function Discriminant(): u32 {
      match this
      case BitcoinLifetime => 24
    }
  }

  /** The Bitcoin backend's constants: 7 confirmations to stability and a
      24-block consensus-hash lifetime. */
  lemma BitcoinChainConstants(c: StableConfirmations, l: ConsensusHashLifetime)
    ensures c.Discriminant() == 7
    ensures l.Discriminant() == 24
  {
  }

  // ---------------------------------------------------------------------
  // Records (`src/burnchains/mod.rs` enforces no invariants on these)
  // ---------------------------------------------------------------------

  /** Quota parameters, carried but not interpreted at this layer. */
  datatype BurnQuotaConfig = BurnQuotaConfig(inc: u64, decNum: u64, decDen: u64)

  datatype BurnchainTxOutput<A> = BurnchainTxOutput(address: A, units: u64)

  datatype BurnchainTxInput<K> = BurnchainTxInput(
    keys: seq<K>,
    numRequired: usize,
    inType: BurnchainInputType)

  datatype BurnchainTransaction<A, K> = BurnchainTransaction(
    txid: Txid,
    vtxindex: u32,
    opcode: u8,
    data: seq<u8>,
    inputs: seq<BurnchainTxInput<K>>,
    outputs: seq<BurnchainTxOutput<A>>)

  datatype BurnchainBlock<A, K> = BurnchainBlock(
    blockHeight: u64,
    blockHash: BurnchainHeaderHash,
    parentBlockHash: BurnchainHeaderHash,
    txs: seq<BurnchainTransaction<A, K>>)

  datatype Burnchain = Burnchain(
    peerVersion: u32,
    networkId: u32,
    chainName: string,
    networkName: string,
    workingDir: string,
    burnQuota: BurnQuotaConfig,
    consensusHashLifetime: u32,
    stableConfirmations: u32,
    firstBlockHeight: u64,
    firstBlockHash: BurnchainHeaderHash)

  /** Snapshot of the chain tip and the stable tip; `H` is the consensus-hash
      type, which is defined outside this layer. */
  datatype BurnchainView<H> = BurnchainView(
    burnBlockHeight: u64,
    burnConsensusHash: H,
    burnStableBlockHeight: u64,
    burnStableConsensusHash: H)

  // ---------------------------------------------------------------------
  // Capability interfaces, as records of operations supplied by a cryptosystem
  // ---------------------------------------------------------------------

  datatype PublicKeyOps<!K> = PublicKeyOps(
    toBytes: K -> seq<u8>,
    verify: (K, seq<u8>, seq<u8>) -> Outcome<bool>)

  datatype PrivateKeyOps<!P> = PrivateKeyOps(
    toBytes: P -> seq<u8>,
    sign: (P, seq<u8>) -> Outcome<seq<u8>>)

  datatype AddressOps<!A> = AddressOps(
    toBytes: A -> seq<u8>,
    toString: A -> string,
    fromString: string -> Option<A>,
    burnBytes: seq<u8>)

  /** A success value or a static error message, as the key operations return. */
  datatype Outcome<T> = Ok(value: T) | Err(message: string)

  datatype Option<T> = None | Some(value: T)
}
