/** Records, constants and the scalar field shared by the data-chain modules. */
module Types {

  // Constants of the build package.
  const SEG_SIZE: nat := 248 * 1024
  const SLOT_DURATION: nat := 30
  const DAY: nat := 86400
  const ORDER_MIN: nat := 100 * DAY
  const ORDER_MAX: nat := 1000 * DAY
  const BASE_TIME: nat := 1638316800
  const UINT64: nat := 0x1_0000_0000_0000_0000

  type Bytes = seq<bv8>

  /** Always true. A fact guarded by it is not looked into until something is asked for. */
  predicate Asked(n: nat) { n == n }

  datatype Option<+T> = None | Some(value: T)

  datatype Result<+T> = Ok(value: T) | Err

  /** build.ChalDurMap: fewest slots in a challenge epoch, by chain version. */
  function ChalDuration(version: nat): (d: Option<nat>)
  {
    match version
    case 0 => Some(120)
    case 1 => Some(960)
    case 2 => Some(2880)
    case 3 => Some(20160)
    case _ => None
  }

  /** build.UpdateMap: height from which a chain version is in force. */
  function UpdateHeight(version: nat): Option<nat>
  {
    match version
    case 1 => Some(2880)
    case 2 => Some(20160)
    case 3 => Some(103000)
    case _ => None
  }

  /** Wall-clock second at which a slot starts. */
  function SlotTime(slot: nat): int
  {
    BASE_TIME + slot * SLOT_DURATION
  }

  // ---- The scalar field: addition modulo the order of the BLS12-381 group ----

  const FR_ORDER: nat := 52435875175126190479447740508185965837690552500527637822603658699938581184513

  type Fr = x: int | 0 <= x < FR_ORDER

  function FrAdd(a: Fr, b: Fr): Fr
  {
    if a + b < FR_ORDER then a + b else a + b - FR_ORDER
  }

  function FrSub(a: Fr, b: Fr): Fr
  {
    if a >= b then a - b else a - b + FR_ORDER
  }

  // ---- Roles and signatures ----

  datatype RoleType = User | Provider | Keeper | Unknown

  /** pb.RoleInfo; `extra` is the PDP verify key a user registers (None: it does not decode). */
  datatype RoleBase = RoleBase(id: nat, typ: RoleType, key: nat, extra: Option<nat>)

  datatype SigType = SigUnknown | SigSecp256k1 | SigBLS

  datatype Signature = Signature(typ: SigType, data: seq<nat>)

  /** What a signature covers; hashes are ideal, so a digest is the tuple of hashed fields. */
  datatype Digest =
    | OrderDigest(user: nat, pro: nat, nonce: nat, start: int, end: int, size: nat, token: nat, price: int)
    | SeqDigest(data: OrderSeq)
    | IncomeDigest(income: AccIncome)

  /** The PDP challenge built for one user in one epoch, after every `Add`. */
  datatype Challenge = Challenge(verifyKey: nat, user: nat, seed: nat, fr: Fr)

  /** Cryptography as arbitrary total functions: everything is proved for all of them. */
  datatype Crypto = Crypto(
    sigOk: (RoleBase, Digest, Signature) -> bool,
    segFr: (nat, nat, nat, nat) -> Fr,       // hash of fsID, bucket, stripe, chunk
    proofOk: (nat, Challenge, nat) -> bool,
    aggregate: (seq<nat>, seq<nat>) -> Option<seq<nat>>,   // bls.AggregateSignature
    seedOf: EpochParams -> nat,
    blockId: RawBlock -> nat,
    nextRoot: (nat, Blob) -> nat)

  // ---- Orders ----

  datatype Pair = Pair(user: nat, pro: nat)
  datatype OrderKey = OrderKey(pair: Pair, nonce: nat)
  datatype SeqKey = SeqKey(pair: Pair, nonce: nat, seqNum: nat)
  datatype PairEpoch = PairEpoch(pair: Pair, epoch: nat)
  datatype ProEpoch = ProEpoch(pro: nat, epoch: nat)

  datatype NonceSeq = NonceSeq(nonce: nat, seqNum: nat, subNonce: nat)

  datatype OrderBase = OrderBase(user: nat, pro: nat, nonce: nat, start: int, end: int, token: nat, segPrice: nat)

  datatype SignedOrder = SignedOrder(ob: OrderBase, size: nat, price: int, usign: Signature, psign: Signature)

  datatype AggSegs = AggSegs(bucket: nat, start: nat, length: nat, chunk: nat)

  datatype OrderSeq = OrderSeq(user: nat, pro: nat, nonce: nat, seqNum: nat, size: nat, price: int,
                               segments: seq<AggSegs>)

  datatype SignedSeq = SignedSeq(data: OrderSeq, userDataSig: Signature, proDataSig: Signature,
                                 userSig: Signature, proSig: Signature)

  datatype DelPart = DelPart(fr: Fr, size: nat, price: int)

  datatype OrderFull = OrderFull(order: SignedOrder, seqNum: nat, fr: Fr, del: DelPart)

  datatype SeqFull = SeqFull(data: OrderSeq, fr: Fr, del: DelPart)

  /** SignedOrder.Hash: the segment price is not among the hashed fields. */
  function OrderHash(o: SignedOrder): Digest
  {
    OrderDigest(o.ob.user, o.ob.pro, o.ob.nonce, o.ob.start, o.ob.end, o.size, o.ob.token, o.price)
  }

  // ---- Income ----

  datatype Income = Income(value: int, penalty: int)

  datatype AccIncome = AccIncome(pro: nat, token: nat, value: int, penalty: int)

  datatype MultiSignature = MultiSignature(typ: SigType, signers: seq<nat>, data: seq<nat>)

  datatype Confirmation = Confirmation(income: AccIncome, sig: MultiSignature)

  // ---- Challenge epochs ----

  // Message identifiers (types.MsgID) are hashes; a hash is a number.

  datatype EpochParams = EpochParams(epoch: nat, prev: nat, sig: MultiSignature)

  datatype ChalEpoch = ChalEpoch(epoch: nat, slot: nat, seed: nat)

  // ---- Buckets ----

  datatype AggStripe = AggStripe(order: nat, pro: nat, start: nat, length: nat)

  // ---- Messages and blocks ----

  datatype SegProof = SegProof(user: nat, pro: nat, epoch: nat, orderStart: nat, orderEnd: nat,
                               size: nat, price: int, proof: nat)

  datatype SegRemove = SegRemove(user: nat, pro: nat, nonce: nat, seqNum: nat, segments: seq<AggSegs>)

  /** Decoded message parameters. `Malformed` stands for an unknown method, for parameters that do
      not decode and for parameters with a missing price. */
  datatype Payload =
    | AddRole(role: RoleBase)
    | CreateFs(verifyKey: nat)
    | CreateBucket(bucket: nat, chunks: nat)
    | PreDataOrder(order: SignedOrder)
    | AddDataOrder(sseq: SignedSeq)
    | CommitDataOrder(user: nat, pro: nat, nonce: nat, seqNum: nat)
    | SubDataOrder(subUser: nat, subPro: nat, subNonce: nat)
    | SegmentFault(fault: SegRemove)
    | UpdateChalEpoch(params: EpochParams)
    | SegmentProof(chal: SegProof)
    | ConfirmPostIncome(epoch: nat, income: AccIncome, sig: Signature)
    | UpdateNet(addr: nat)
    | AddMeta(metaBucket: nat)
    | Malformed(raw: nat)

  datatype Message = Message(from: nat, nonce: nat, body: Payload)

  datatype Header = Header(version: nat, group: nat, height: nat, slot: nat, miner: nat, prevId: nat)

  /** What is hashed into the state root: block headers and message parameters. */
  datatype Blob = HeaderBlob(header: Header) | ParamsBlob(params: Payload)

  /** Receipts are kept as "rejected" flags (Receipt.Err != 0). */
  datatype RawBlock = RawBlock(header: Header, msgs: seq<Message>, receipts: seq<bool>, parentRoot: nat, root: nat)

  datatype Block = Block(raw: RawBlock, signers: seq<nat>)

  // ---- Field lemmas ----

  lemma FrAddAssoc(a: Fr, b: Fr, c: Fr)
    ensures FrAdd(FrAdd(a, b), c) == FrAdd(a, FrAdd(b, c))
  {
  }

  /** Subtracting sums is summing differences. */
  lemma FrSubOfSums(a: Fr, b: Fr, c: Fr, d: Fr)
    ensures FrSub(FrAdd(a, b), FrAdd(c, d)) == FrAdd(FrSub(a, c), FrSub(b, d))
  {
  }
}
