/** The two halves of a sale: what the buyer commits to, what the seller's gate demands, the
    prompt and its result, and the receipt that closes it. */
module Handshake {
  import opened Text
  import opened Hex
  import opened Seqs
  import Registry

  const FIXTURE_TOKEN := "0x00000000000000000000000000000000000000ff"
  const FIXTURE_DECIMALS: nat := 6

  datatype RailKind = Rpc | Graduated | Fixture

  /** The configured rail; absent in the fixture posture. */
  datatype RailConfig = RailConfig(token: string, chainId: int)

  /** What both sides know about settlement: the rail in use, its configuration, and what
      the token contract answers when asked for its decimals. */
  datatype Rail = Rail(kind: RailKind, config: Option<RailConfig>, decimals: Option<nat>)

  datatype Rational = Rational(num: int, den: int)

  datatype Offer = Offer(id: string, perTask: string, asset: string, chainId: int)

  datatype Terms = Terms(
    buyer: string, seller: string, token: string, amount: int, taskHash: seq<byte>, drawdown: bool)

  datatype Receipt = Receipt(
    sessionId: string, offerId: string, seller: string, buyer: string, resultHash: string,
    price: string, asset: string, chainId: int, interrupted: bool, signature: string)

  /** Hashing, signing, number reading and address checks; `verify` takes the signer's peer
      id, the signed receipt without its signature, and the signature. */
  datatype Functions = Functions(
    sha: string -> seq<byte>,
    price: string -> Option<Rational>,
    isAddress: string -> bool,
    sign: Receipt -> string,
    verify: (string, Receipt, string) -> bool)

  /** Hashes have their length, rationals are proper, and a signature verifies. */
  ghost predicate Sound(f: Functions, peer: string) {
    && (forall s :: |f.sha(s)| == HASH_LENGTH)
    && (forall s :: f.price(s).Some? ==> f.price(s).value.den > 0)
    && (forall r :: f.sign(r) != "" && f.verify(peer, r, f.sign(r)))
  }

  // ----- The price in base units

  function Power10(n: nat): (p: int)
    ensures p > 0
  {
    if n == 0 then 1 else 10 * Power10(n - 1)
  }

  /** `price` times `scale`, if that is a whole number. */
  function Whole(price: Rational, scale: int): Option<int>
    requires price.den > 0
  {
    if (price.num * scale) % price.den != 0 then None else Some(price.num * scale / price.den)
  }

  /** What the buyer commits to. */
  function PriceBaseUnits(f: Functions, perTask: string, rail: Rail): Option<int> {
    match f.price(Trim(perTask))
    case None => None
    case Some(price) =>
      if price.num <= 0 || price.den <= 0 then None
      else if rail.kind == Fixture then Whole(price, Power10(FIXTURE_DECIMALS))
      else
        match rail.decimals
        case None => None
        case Some(d) => Whole(price, Power10(d))
  }

  function TokenDecimals(rail: Rail): Option<nat> {
    match rail.kind
    case Rpc => rail.decimals
    case Graduated => rail.decimals
    case Fixture => Some(FIXTURE_DECIMALS)
  }

  /** What the gate expects. */
  function ExpectedAmount(f: Functions, offer: Offer, rail: Rail): Option<int> {
    var price := f.price(Trim(offer.perTask));
    if price.None? || price.value.num <= 0 || price.value.den <= 0 then None
    else
      var decimals := TokenDecimals(rail);
      if decimals.None? then None else Whole(price.value, Power10(decimals.value))
  }

  /** On the same rail the two sides price an offer alike, and the amount is the exact
      price in base units. */
  lemma PricesAgree(f: Functions, offer: Offer, rail: Rail)
    ensures PriceBaseUnits(f, offer.perTask, rail) == ExpectedAmount(f, offer, rail)
    ensures ExpectedAmount(f, offer, rail).Some? ==>
      && TokenDecimals(rail).Some?
      && var price := f.price(Trim(offer.perTask)).value;
      && ExpectedAmount(f, offer, rail).value * price.den == price.num * Power10(TokenDecimals(rail).value)
      && ExpectedAmount(f, offer, rail).value > 0
  {
    var amount := ExpectedAmount(f, offer, rail);
    if amount.Some? {
      var price, scale := f.price(Trim(offer.perTask)).value, Power10(TokenDecimals(rail).value);
      ExactQuotient(price.num * scale, price.den);
      PositiveProduct(price.num, scale);
      PositiveFactor(amount.value, price.den);
    }
  }

  lemma ExactQuotient(x: int, d: int)
    requires d > 0 && x % d == 0
    ensures x / d * d == x
  {
  }

  lemma PositiveProduct(a: int, b: int)
    requires a > 0 && b > 0
    ensures a * b > 0
  {
  }

  lemma PositiveFactor(a: int, d: int)
    requires d > 0 && a * d > 0
    ensures a > 0
  {
  }

  lemma {:induction false} PowersAdd(m: nat, n: nat)
    ensures Power10(m + n) == Power10(m) * Power10(n) && Power10(1) == 10
  {
    if m > 0 {
      PowersAdd(m - 1, n);
      assert Power10(m + n) == 10 * Power10(m - 1 + n);
    }
  }

  lemma WholeIff(price: Rational, scale: int, n: int)
    requires price.den > 0
    ensures Whole(price, scale) == Some(n) <==> n * price.den == price.num * scale
  {
    var x, d := price.num * scale, price.den;
    if n * d == x {
      ExactMultiple(n, d);
    } else if x % d == 0 {
      ExactQuotient(x, d);
    }
  }

  lemma ExactMultiple(n: int, d: int)
    requires d > 0
    ensures (n * d) % d == 0 && n * d / d == n
  {
    var q, r := n * d / d, (n * d) % d;
    assert (n - q) * d == r;
    if n - q >= 1 {
      AtLeastOnce(n - q, d);
    } else if n - q <= -1 {
      AtLeastOnce(q - n, d);
    }
  }

  lemma AtLeastOnce(a: int, d: int)
    requires a >= 1 && d > 0
    ensures a * d >= d
  {
  }

  /** An offer costs `n` base units exactly when its price is a positive number, the token's
      decimals are known, and `n` over ten to their power is that price. */
  lemma PriceIff(f: Functions, offer: Offer, rail: Rail, n: int)
    ensures ExpectedAmount(f, offer, rail) == Some(n) <==>
      var price, decimals := f.price(Trim(offer.perTask)), if rail.kind == Fixture then Some(6) else rail.decimals;
      && price.Some? && price.value.num > 0 && price.value.den > 0 && decimals.Some?
      && n * price.value.den == price.value.num * Power10(decimals.value)
  {
    var price, decimals := f.price(Trim(offer.perTask)), TokenDecimals(rail);
    if price.Some? && price.value.den > 0 && decimals.Some? {
      WholeIff(price.value, Power10(decimals.value), n);
    }
  }

  // ----- The purchase and its presentation

  datatype Purchase = Purchase(
    id: string, session: string, sellerPeer: string, seller: string, buyer: string, offerId: string,
    task: string, taskHash: string, attachments: seq<string>,
    amount: string, token: string, chainId: int, drawdown: bool)

  /** The buyer's side of an order, up to its caps and reviews. */
  function Bought(f: Functions, rail: Rail, offer: Offer, order: Purchase): Option<Purchase> {
    if Trim(offer.perTask) == "" then None
    else
      match PriceBaseUnits(f, offer.perTask, rail)
      case None => None
      case Some(amount) =>
        if amount < 0 then None
        else
          Some(order.(
            offerId := offer.id, taskHash := Prefixed(f.sha(order.task)), amount := Decimal(amount),
            token := if rail.config.Some? then rail.config.value.token else FIXTURE_TOKEN,
            chainId := if rail.config.Some? then rail.config.value.chainId else offer.chainId))
  }

  datatype Presentation = Presentation(
    session: string, taskHash: string, nonce: string, offerId: string, buyer: string,
    amount: string, token: string, chainId: int, drawdown: bool)

  function Presented(p: Purchase): Presentation {
    Presentation(p.session, p.taskHash, p.id, p.offerId, p.buyer, p.amount, p.token, p.chainId, p.drawdown)
  }

  /** An order can be placed exactly when its offer has a price in base units; it then names
      the offer, the hash of the task and that price. */
  lemma BoughtIff(f: Functions, rail: Rail, offer: Offer, order: Purchase)
    ensures Bought(f, rail, offer, order).Some? <==> Trim(offer.perTask) != "" && ExpectedAmount(f, offer, rail).Some?
    ensures Bought(f, rail, offer, order).Some? ==>
      var p := Bought(f, rail, offer, order).value;
      && p.offerId == offer.id && p.taskHash == Prefixed(f.sha(order.task))
      && ParseInt(p.amount) == ExpectedAmount(f, offer, rail)
      && p.task == order.task && p.attachments == order.attachments
      && p.buyer == order.buyer && p.seller == order.seller && p.drawdown == order.drawdown
  {
    PricesAgree(f, offer, rail);
    if ExpectedAmount(f, offer, rail).Some? {
      ParseIntRoundTrip(ExpectedAmount(f, offer, rail).value);
    }
  }

  // ----- The gate

  datatype Seller = Seller(serves: bool, rail: Option<Rail>, offers: seq<Offer>, payout: string)

  datatype GatedSession = GatedSession(id: string, escrow: string, offer: Offer, terms: Terms)

  datatype Code =
    | ServeDisabled | RateLimited | RailUnavailable | BadSessionId | BadTaskHash | UnknownOffer | OfferNotServable
    | BadBuyer | BadAmount | TermsMismatch | PriceResolution | VerifyFailed | BadRequest | CapReached

  datatype Outcome = Accepted(session: GatedSession) | Rejected(code: Code)

  /** The first offer with the id. */
  function FirstOffer(offers: seq<Offer>, id: string): Option<Offer> {
    if offers == [] then None
    else if offers[0].id == id then Some(offers[0])
    else FirstOffer(offers[1..], id)
  }

  method FindOffer(offers: seq<Offer>, id: string) returns (found: Option<Offer>)
    ensures found == FirstOffer(offers, id)
  {
    assert offers[0..] == offers;
    for i := 0 to |offers|
      invariant FirstOffer(offers[i..], id) == FirstOffer(offers, id)
    {
      DropDrop(offers, i, 1);
      if offers[i].id == id {
        return Some(offers[i]);
      }
    }
    found := None;
  }

  predicate IsSessionId(f: Functions, kind: RailKind, id: string) {
    if kind == Graduated then ParseBytes32(id).Some? else f.isAddress(id)
  }

  /** The token a presentation means on this rail. */
  function TokenOf(rail: Rail, token: string): string {
    if Trim(token) != "" then Trim(token)
    else if rail.config.Some? then rail.config.value.token
    else FIXTURE_TOKEN
  }

  predicate HasOtherTerms(rail: Rail, p: Presentation) {
    rail.config.Some? &&
    var c := rail.config.value;
    (Trim(p.token) != "" && !EqualFold(Trim(p.token), c.token)) || (p.chainId != 0 && p.chainId != c.chainId)
  }

  function GateTerms(seller: Seller, rail: Rail, p: Presentation, hash: seq<byte>, amount: int): Terms {
    Terms(p.buyer, seller.payout, TokenOf(rail, p.token), amount, hash, p.drawdown)
  }

  function SessionOf(p: Presentation, offer: Offer, terms: Terms): GatedSession {
    var escrow := Lower(p.session);
    GatedSession(if p.drawdown then Registry.DrawdownKey(escrow, p.nonce) else escrow, escrow, offer, terms)
  }

  /** The checks in front of a session: `rateOk` is the rate limit's answer, `lock` the
      rail's, `admits` the registry's. */
  function Gate(f: Functions, seller: Seller, p: Presentation, rateOk: bool,
                lock: (string, Terms) -> Option<bool>, admits: GatedSession -> bool): Outcome
  {
    if !seller.serves then Rejected(ServeDisabled)
    else if !rateOk then Rejected(RateLimited)
    else if seller.rail.None? then Rejected(RailUnavailable)
    else
      var rail := seller.rail.value;
      if !IsSessionId(f, rail.kind, p.session) then Rejected(BadSessionId)
      else
        match ParseBytes32(p.taskHash)
        case None => Rejected(BadTaskHash)
        case Some(hash) =>
          match FirstOffer(seller.offers, p.offerId)
          case None => Rejected(UnknownOffer)
          case Some(offer) => GateOffer(f, seller, rail, p, hash, offer, lock, admits)
  }

  function GateOffer(f: Functions, seller: Seller, rail: Rail, p: Presentation, hash: seq<byte>, offer: Offer,
                     lock: (string, Terms) -> Option<bool>, admits: GatedSession -> bool): Outcome
  {
    if Trim(offer.perTask) == "" then Rejected(OfferNotServable)
    else if !f.isAddress(p.buyer) then Rejected(BadBuyer)
    else
      var amount := ParseInt(Trim(p.amount));
      if amount.None? || amount.value <= 0 then Rejected(BadAmount)
      else if HasOtherTerms(rail, p) then Rejected(TermsMismatch)
      else
        match ExpectedAmount(f, offer, rail)
        case None => Rejected(PriceResolution)
        case Some(expected) =>
          if expected != amount.value then Rejected(TermsMismatch)
          else
            var terms := GateTerms(seller, rail, p, hash, amount.value);
            match lock(p.session, terms)
            case None => Rejected(VerifyFailed)
            case Some(ok) =>
              if !ok then Rejected(TermsMismatch)
              else if p.drawdown && p.nonce == "" then Rejected(BadRequest)
              else if !admits(SessionOf(p, offer, terms)) then Rejected(CapReached)
              else Accepted(SessionOf(p, offer, terms))
  }

  /** The session id has the shape of the rail's. */
  predicate HasShape(f: Functions, rail: Rail, id: string) {
    match rail.kind
    case Graduated => ParseBytes32(id).Some?
    case _ => f.isAddress(id)
  }

  /** Where token and chain are given, they are the configured ones. */
  predicate FitsConfig(rail: Rail, p: Presentation) {
    rail.config.Some? ==>
      && (Trim(p.token) == "" || Lower(Trim(p.token)) == Lower(rail.config.value.token))
      && p.chainId in {0, rail.config.value.chainId}
  }

  /** What a presentation commits both sides to. */
  predicate IsCommitted(seller: Seller, rail: Rail, p: Presentation, terms: Terms) {
    && terms.buyer == p.buyer && terms.seller == seller.payout && terms.drawdown == p.drawdown
    && ParseInt(Trim(p.amount)) == Some(terms.amount) && ParseBytes32(p.taskHash) == Some(terms.taskHash)
    && (if Trim(p.token) != "" then terms.token == Trim(p.token)
        else if rail.config.Some? then terms.token == rail.config.value.token
        else terms.token == FIXTURE_TOKEN)
  }

  /** The gate accepts exactly what is well formed, priced as offered, locked on the rail and
      admitted by the registry; and the session stands for just that. */
  lemma GateAcceptsIff(f: Functions, seller: Seller, p: Presentation, rateOk: bool,
                       lock: (string, Terms) -> Option<bool>, admits: GatedSession -> bool, s: GatedSession)
    ensures Gate(f, seller, p, rateOk, lock, admits) == Accepted(s) <==>
      && seller.serves && rateOk && seller.rail.Some? && admits(s)
      && var rail := seller.rail.value;
      && HasShape(f, rail, p.session) && f.isAddress(p.buyer) && FitsConfig(rail, p)
      && FirstOffer(seller.offers, p.offerId) == Some(s.offer) && Trim(s.offer.perTask) != ""
      && IsCommitted(seller, rail, p, s.terms) && ExpectedAmount(f, s.offer, rail) == Some(s.terms.amount)
      && lock(p.session, s.terms) == Some(true)
      && s.escrow == Lower(p.session)
      && (if p.drawdown then p.nonce != "" && s.id == Registry.DrawdownKey(s.escrow, p.nonce) else s.id == s.escrow)
  {
    if seller.rail.Some? {
      var rail := seller.rail.value;
      assert HasShape(f, rail, p.session) <==> IsSessionId(f, rail.kind, p.session);
      assert FitsConfig(rail, p) <==> !HasOtherTerms(rail, p);
      if ParseInt(Trim(p.amount)).Some? && ParseBytes32(p.taskHash).Some? {
        var amount, hash := ParseInt(Trim(p.amount)).value, ParseBytes32(p.taskHash).value;
        assert IsCommitted(seller, rail, p, s.terms) <==> s.terms == GateTerms(seller, rail, p, hash, amount);
      }
      PricesAgree(f, s.offer, rail);
    }
  }

  /** What is wrong with a presentation that is rejected with `code`. */
  ghost predicate IsDefect(f: Functions, seller: Seller, p: Presentation, rateOk: bool,
                           lock: (string, Terms) -> Option<bool>, code: Code)
  {
    var offer, amount := FirstOffer(seller.offers, p.offerId), ParseInt(Trim(p.amount));
    match code
    case ServeDisabled => !seller.serves
    case RateLimited => !rateOk
    case RailUnavailable => seller.rail.None?
    case BadSessionId => seller.rail.Some? && !HasShape(f, seller.rail.value, p.session)
    case BadTaskHash => ParseBytes32(p.taskHash).None?
    case UnknownOffer => offer.None?
    case OfferNotServable => offer.Some? && Trim(offer.value.perTask) == ""
    case BadBuyer => !f.isAddress(p.buyer)
    case BadAmount => amount.None? || amount.value <= 0
    case PriceResolution => offer.Some? && seller.rail.Some? && ExpectedAmount(f, offer.value, seller.rail.value).None?
    case BadRequest => p.drawdown && p.nonce == ""
    case CapReached => true
    case VerifyFailed => LockSays(seller, p, lock, None)
    case TermsMismatch =>
      || LockSays(seller, p, lock, Some(false))
      || (&& seller.rail.Some?
          && (!FitsConfig(seller.rail.value, p)
              || (offer.Some? && ExpectedAmount(f, offer.value, seller.rail.value) != amount)))
  }

  /** What the rail says about the terms the presentation stands for. */
  ghost predicate LockSays(seller: Seller, p: Presentation, lock: (string, Terms) -> Option<bool>, said: Option<bool>) {
    && seller.rail.Some?
    && exists terms :: IsCommitted(seller, seller.rail.value, p, terms) && lock(p.session, terms) == said
  }

  /** A rejection names a defect that is there. */
  lemma GateSaysWhy(f: Functions, seller: Seller, p: Presentation, rateOk: bool,
                    lock: (string, Terms) -> Option<bool>, admits: GatedSession -> bool)
    ensures var gate := Gate(f, seller, p, rateOk, lock, admits);
      gate.Rejected? ==> IsDefect(f, seller, p, rateOk, lock, gate.code)
  {
    var hash, offer := ParseBytes32(p.taskHash), FirstOffer(seller.offers, p.offerId);
    if seller.rail.Some? && hash.Some? && offer.Some? {
      GateOfferSaysWhy(f, seller, p, rateOk, hash.value, offer.value, lock, admits);
    }
  }

  lemma GateOfferSaysWhy(f: Functions, seller: Seller, p: Presentation, rateOk: bool, hash: seq<byte>, offer: Offer,
                         lock: (string, Terms) -> Option<bool>, admits: GatedSession -> bool)
    requires seller.rail.Some? && ParseBytes32(p.taskHash) == Some(hash)
    requires FirstOffer(seller.offers, p.offerId) == Some(offer)
    ensures var gate := GateOffer(f, seller, seller.rail.value, p, hash, offer, lock, admits);
      gate.Rejected? ==> IsDefect(f, seller, p, rateOk, lock, gate.code)
  {
    var amount := ParseInt(Trim(p.amount));
    if amount.Some? {
      var terms := GateTerms(seller, seller.rail.value, p, hash, amount.value);
      assert IsCommitted(seller, seller.rail.value, p, terms);
    }
  }

  /** Only a full registry rejects what has none. */
  lemma OnlyCapRejects(f: Functions, seller: Seller, p: Presentation, rateOk: bool,
                       lock: (string, Terms) -> Option<bool>, admits: GatedSession -> bool)
    ensures Gate(f, seller, p, rateOk, lock, admits) == Rejected(CapReached) ==>
      Gate(f, seller, p, rateOk, lock, s => true).Accepted?
  {
  }

  /** Two accepted sessions share a registry key exactly when they share the escrow and are
      both the whole of it, or draws with the same first sixteen letters of their nonces. */
  lemma GatedKeysAgreeIff(p: Presentation, q: Presentation, o: Offer, u: Offer, s: Terms, t: Terms)
    requires '#' !in Lower(p.session) && '#' !in Lower(q.session)
    requires (p.drawdown ==> p.nonce != "") && (q.drawdown ==> q.nonce != "")
    ensures SessionOf(p, o, s).id == SessionOf(q, u, t).id <==>
      && Lower(p.session) == Lower(q.session) && p.drawdown == q.drawdown
      && (p.drawdown ==> Registry.Sixteen(p.nonce) == Registry.Sixteen(q.nonce))
  {
    if p.drawdown && q.drawdown {
      Registry.DrawdownKeysAgreeIff(Lower(p.session), p.nonce, Lower(q.session), q.nonce);
    } else if p.drawdown {
      assert '#' in SessionOf(p, o, s).id;
    } else if q.drawdown {
      assert '#' in SessionOf(q, u, t).id;
    }
  }

  /** Nothing passes the gate without a confirmed lock over exactly the expected price of a
      served offer. */
  lemma GateIsSafe(f: Functions, seller: Seller, p: Presentation, rateOk: bool,
                   lock: (string, Terms) -> Option<bool>, admits: GatedSession -> bool)
    requires Gate(f, seller, p, rateOk, lock, admits).Accepted?
    ensures var s := Gate(f, seller, p, rateOk, lock, admits).session;
      && seller.rail.Some? && s.offer in seller.offers && s.offer.id == p.offerId
      && lock(p.session, s.terms) == Some(true)
      && Some(s.terms.amount) == ExpectedAmount(f, s.offer, seller.rail.value)
      && ParseBytes32(p.taskHash) == Some(s.terms.taskHash) && s.terms.seller == seller.payout
  {
    FirstOfferIs(seller.offers, p.offerId);
  }

  lemma {:induction false} FirstOfferIs(offers: seq<Offer>, id: string)
    ensures var o := FirstOffer(offers, id); o.Some? ==> o.value in offers && o.value.id == id
    ensures FirstOffer(offers, id).None? <==> forall o :: o in offers ==> o.id != id
  {
    if offers != [] {
      FirstOfferIs(offers[1..], id);
      assert offers == [offers[0]] + offers[1..];
    }
  }

  // ----- The prompt

  datatype Block = TextBlock(text: string) | LinkBlock(uri: string) | OtherBlock

  function PromptText(blocks: seq<Block>): Option<string> {
    if blocks == [] then Some("")
    else
      var n := |blocks| - 1;
      match PromptText(blocks[..n])
      case None => None
      case Some(text) =>
        match blocks[n]
        case TextBlock(t) => Some(text + t)
        case LinkBlock(_) => Some(text)
        case OtherBlock => None
  }

  /** Reads the text of a prompt, and fails on the first block that is neither text nor
      link. */
  method ReadPrompt(blocks: seq<Block>) returns (text: Option<string>)
    ensures text == PromptText(blocks)
  {
    var acc := "";
    for i := 0 to |blocks|
      invariant PromptText(blocks[..i]) == Some(acc)
    {
      assert blocks[..i + 1][..i] == blocks[..i];
      match blocks[i] {
        case TextBlock(t) => acc := acc + t;
        case LinkBlock(_) =>
        case OtherBlock =>
          OtherEndsPrompt(blocks, i);
          return None;
      }
    }
    assert blocks[..|blocks|] == blocks;
    text := Some(acc);
  }

  lemma {:induction false} OtherEndsPrompt(blocks: seq<Block>, i: nat)
    requires i < |blocks| && blocks[i] == OtherBlock
    ensures PromptText(blocks) == None
    decreases |blocks|
  {
    if i < |blocks| - 1 {
      OtherEndsPrompt(blocks[..|blocks| - 1], i);
    }
  }

  function Links(uris: seq<string>): seq<Block> {
    seq(|uris|, i requires 0 <= i < |uris| => LinkBlock(uris[i]))
  }

  /** The blocks the buyer sends. */
  method BuildBlocks(task: string, attachments: seq<string>) returns (blocks: seq<Block>)
    ensures blocks == [TextBlock(task)] + Links(attachments)
    ensures PromptText(blocks) == Some(task)
  {
    blocks := [TextBlock(task)];
    for i := 0 to |attachments|
      invariant blocks == [TextBlock(task)] + Links(attachments[..i])
    {
      assert Links(attachments[..i + 1]) == Links(attachments[..i]) + [LinkBlock(attachments[i])];
      blocks := blocks + [LinkBlock(attachments[i])];
    }
    assert attachments[..|attachments|] == attachments;
    BlocksFlatten(task, attachments);
  }

  /** The sent blocks flatten to the committed task, whatever is attached. */
  lemma {:induction false} BlocksFlatten(task: string, attachments: seq<string>)
    ensures PromptText([TextBlock(task)] + Links(attachments)) == Some(task)
  {
    var blocks := [TextBlock(task)] + Links(attachments);
    var n := |blocks| - 1;
    if attachments == [] {
      assert blocks[..0] == [];
      assert "" + task == task;
      assert PromptText(blocks[..n]) == Some("");
    } else {
      var m := |attachments| - 1;
      assert blocks[..n] == [TextBlock(task)] + Links(attachments[..m]);
      BlocksFlatten(task, attachments[..m]);
    }
  }

  // ----- The result

  /** A session update; only message text counts towards the result. */
  datatype Update = Chunk(text: string) | OtherUpdate

  function Delta(u: Update): string {
    match u
    case Chunk(t) => t
    case OtherUpdate => ""
  }

  function ResultText(updates: seq<Update>): string {
    if updates == [] then "" else ResultText(updates[..|updates| - 1]) + Delta(updates[|updates| - 1])
  }

  class BuyerHandler {
    var result: string

    constructor ()
      ensures result == ""
    {
      result := "";
    }

    method SessionUpdate(u: Update)
      modifies this
      ensures result == old(result) + Delta(u)
    {
      var text := Delta(u);
      if text != "" {
        result := result + text;
      }
    }
  }

  /** The seller's handler records the text and relays the update. */
  class SellerHandler {
    var result: string
    const upstream: BuyerHandler

    constructor (upstream: BuyerHandler)
      ensures result == "" && this.upstream == upstream
    {
      result := "";
      this.upstream := upstream;
    }

    method SessionUpdate(u: Update)
      modifies this, upstream
      ensures result == old(result) + Delta(u)
      ensures upstream.result == old(upstream.result) + Delta(u)
    {
      var text := Delta(u);
      if text != "" {
        result := result + text;
      }
      upstream.SessionUpdate(u);
    }
  }

  /** After any stream of updates both sides hold the same text. */
  method Stream(updates: seq<Update>) returns (sold: string, bought: string)
    ensures sold == bought == ResultText(updates)
  {
    var buyer := new BuyerHandler();
    var seller := new SellerHandler(buyer);
    for i := 0 to |updates|
      invariant seller.upstream == buyer
      invariant seller.result == buyer.result == ResultText(updates[..i])
    {
      assert updates[..i + 1][..i] == updates[..i];
      seller.SessionUpdate(updates[i]);
    }
    assert updates[..|updates|] == updates;
    sold, bought := seller.result, buyer.result;
  }

  /** The text of a stream is the texts of its message chunks in a row. */
  lemma {:induction false} ResultConcat(u: seq<Update>, v: seq<Update>)
    ensures ResultText(u + v) == ResultText(u) + ResultText(v)
    decreases |v|
  {
    if v == [] {
      assert u + v == u;
    } else {
      var n := |v| - 1;
      ResultConcat(u, v[..n]);
      ResultLast(u + v, u + v[..n], v[n]);
      Assoc(ResultText(u), ResultText(v[..n]), Delta(v[n]));
    }
  }

  lemma ResultLast(all: seq<Update>, before: seq<Update>, last: Update)
    requires all == before + [last]
    ensures ResultText(all) == ResultText(before) + Delta(last)
  {
    assert all[..|all| - 1] == before;
  }

  lemma ResultOfOne(t: string)
    ensures ResultText([Chunk(t)]) == t && ResultText([OtherUpdate]) == ""
  {
    ResultLast([Chunk(t)], [], Chunk(t));
    ResultLast([OtherUpdate], [], OtherUpdate);
  }

  // ----- The receipt

  /** The seller's receipt; `peer` is its identity, absent when it has none. */
  function Minted(f: Functions, s: GatedSession, result: string, interrupted: bool, peer: Option<string>): Receipt {
    var escrow := if s.escrow == "" then s.id else s.escrow;
    var r := Receipt(
      escrow, s.offer.id, "", s.terms.buyer, Prefixed(f.sha(result)),
      if s.terms.amount >= 0 then Decimal(s.terms.amount) else "-" + Decimal(-s.terms.amount),
      s.offer.asset, s.offer.chainId, interrupted, "");
    match peer
    case None => r
    case Some(id) =>
      var named := r.(seller := id);
      named.(signature := f.sign(named))
  }

  datatype Check = Verified(ok: bool) | Mismatch(what: string)

  /** The buyer's check before it releases: `result` is the text it received. */
  function VerifyPurchaseReceipt(f: Functions, p: Purchase, result: string, r: Receipt): Check {
    if !EqualFold(r.sessionId, p.session) then Mismatch("session")
    else if p.sellerPeer != "" && r.seller != p.sellerPeer then Mismatch("seller")
    else if r.resultHash == "" || !EqualFold(r.resultHash, Prefixed(f.sha(result))) then Mismatch("result")
    else if r.offerId != "" && r.offerId != p.offerId then Mismatch("offer")
    else if r.price != "" && r.price != p.amount then Mismatch("price")
    else if r.signature == "" || r.seller == "" then Verified(false)
    else Verified(f.verify(r.seller, r.(signature := ""), r.signature))
  }

  /** What a receipt has to say, and who has to have signed it. */
  predicate ReceiptProves(f: Functions, p: Purchase, result: string, r: Receipt) {
    && r.seller != "" && r.signature != "" && f.verify(r.seller, r.(signature := ""), r.signature)
    && p.sellerPeer in {"", r.seller}
    && EqualFold(r.sessionId, p.session)
    && r.resultHash != "" && EqualFold(r.resultHash, Prefixed(f.sha(result)))
    && r.offerId in {"", p.offerId} && r.price in {"", p.amount}
  }

  /** The check gives true exactly for a receipt that the seller of the purchase signed, for
      this session, this result, and where it says so this offer and this price. */
  lemma ReceiptIsSound(f: Functions, p: Purchase, result: string, r: Receipt)
    ensures VerifyPurchaseReceipt(f, p, result, r) == Verified(true) <==> ReceiptProves(f, p, result, r)
  {
  }

  /** Whatever the session, its receipt names it, its offer, its buyer and the hash of the
      result; and without an identity to sign with no receipt passes. */
  lemma MintedSays(f: Functions, s: GatedSession, result: string, interrupted: bool, peer: Option<string>, p: Purchase)
    ensures var r := Minted(f, s, result, interrupted, peer);
      && r.sessionId == (if s.escrow != "" then s.escrow else s.id)
      && r.offerId == s.offer.id && r.buyer == s.terms.buyer && r.resultHash == Prefixed(f.sha(result))
      && r.interrupted == interrupted && r.seller == (if peer.Some? then peer.value else "")
      && (peer.None? ==> VerifyPurchaseReceipt(f, p, result, r) != Verified(true))
  {
  }

  // ----- The honest run

  /** Both sides run the same rail, the offer is served as advertised, and the outside
      world agrees: addresses are well formed, the lock over the committed terms is
      confirmed, and neither the rate limit nor the caps stand in the way. */
  ghost predicate Honest(f: Functions, rail: Rail, seller: Seller, peer: string, offer: Offer, p: Purchase,
                         lock: (string, Terms) -> Option<bool>, admits: GatedSession -> bool)
  {
    && Sound(f, peer) && peer != "" && p.sellerPeer in {"", peer}
    && seller.serves && seller.rail == Some(rail) && FirstOffer(seller.offers, offer.id) == Some(offer)
    && f.isAddress(p.buyer) && IsSessionId(f, rail.kind, p.session) && p.session != "" && p.id != ""
    && p.seller == seller.payout
    && (rail.config.Some? ==> Trim(rail.config.value.token) == rail.config.value.token != "")
    && ExpectedAmount(f, offer, rail).Some?
    && lock(p.session, Committed(f, rail, offer, p)) == Some(true)
    && admits(SessionOf(Presented(p), offer, Committed(f, rail, offer, p)))
  }

  /** The terms the buyer's purchase stands for. */
  function Committed(f: Functions, rail: Rail, offer: Offer, p: Purchase): Terms {
    var amount := match ExpectedAmount(f, offer, rail) case None => 0 case Some(n) => n;
    Terms(p.buyer, p.seller, p.token, amount, f.sha(p.task), p.drawdown)
  }

  /** The gate accepts what an honest buyer presents, with the buyer's own terms. */
  lemma HonestGate(f: Functions, rail: Rail, seller: Seller, peer: string, offer: Offer, order: Purchase, p: Purchase,
                   lock: (string, Terms) -> Option<bool>, admits: GatedSession -> bool)
    requires Bought(f, rail, offer, order) == Some(p) && Honest(f, rail, seller, peer, offer, p, lock, admits)
    ensures p.amount == Decimal(Committed(f, rail, offer, p).amount)
    ensures Gate(f, seller, Presented(p), true, lock, admits) ==
      Accepted(SessionOf(Presented(p), offer, Committed(f, rail, offer, p)))
  {
    PricesAgree(f, offer, rail);
    ParseIntRoundTrip(ExpectedAmount(f, offer, rail).value);
    ParseBytes32RoundTrip(f.sha(p.task));
    HonestTerms(f, rail, offer, order);
    assert GateTerms(seller, rail, Presented(p), f.sha(p.task), ExpectedAmount(f, offer, rail).value) ==
      Committed(f, rail, offer, p);
  }

  lemma TrimFixture()
    ensures Trim(FIXTURE_TOKEN) == FIXTURE_TOKEN
  {
    assert |FIXTURE_TOKEN| == 42 && FIXTURE_TOKEN[0] == '0' && FIXTURE_TOKEN[41] == 'f';
  }

  lemma HonestTerms(f: Functions, rail: Rail, offer: Offer, order: Purchase)
    requires Bought(f, rail, offer, order).Some?
    requires rail.config.Some? ==> Trim(rail.config.value.token) == rail.config.value.token != ""
    ensures var p := Bought(f, rail, offer, order).value;
      !HasOtherTerms(rail, Presented(p)) && TokenOf(rail, p.token) == p.token
  {
    TrimFixture();
  }

  /** The receipt of the gated session passes, for any result. */
  lemma HonestReceipt(f: Functions, peer: string, p: Purchase, offer: Offer, terms: Terms, result: string)
    requires Sound(f, peer) && peer != "" && p.sellerPeer in {"", peer} && p.session != ""
    requires p.offerId == offer.id && terms.amount >= 0 && p.amount == Decimal(terms.amount)
    ensures var minted := Minted(f, SessionOf(Presented(p), offer, terms), result, false, Some(peer));
      VerifyPurchaseReceipt(f, p, result, minted) == Verified(true)
  {
    LowerIdempotent(p.session);
    var s := SessionOf(Presented(p), offer, terms);
    var r := Minted(f, s, result, false, Some(peer));
    assert r.sessionId == Lower(p.session);
    assert r.(signature := "") == r.(signature := "").(seller := peer);
    assert f.verify(peer, r.(signature := ""), r.signature);
  }

  /** With the same rail settings, for every price, task, attachment list and stream of
      updates: the gate accepts, the prompt carries the committed task, and the receipt the
      seller mints passes the buyer's check. */
  lemma HonestRun(f: Functions, rail: Rail, seller: Seller, peer: string, offer: Offer, order: Purchase, p: Purchase,
                  lock: (string, Terms) -> Option<bool>, admits: GatedSession -> bool, updates: seq<Update>)
    requires Bought(f, rail, offer, order) == Some(p) && Honest(f, rail, seller, peer, offer, p, lock, admits)
    ensures var gate := Gate(f, seller, Presented(p), true, lock, admits);
      && gate.Accepted?
      && PromptText([TextBlock(p.task)] + Links(p.attachments)) == Some(p.task)
      && f.sha(p.task) == gate.session.terms.taskHash
      && VerifyPurchaseReceipt(f, p, ResultText(updates),
           Minted(f, gate.session, ResultText(updates), false, Some(peer))) == Verified(true)
  {
    HonestGate(f, rail, seller, peer, offer, order, p, lock, admits);
    BlocksFlatten(p.task, p.attachments);
    HonestReceipt(f, peer, p, offer, Committed(f, rail, offer, p), ResultText(updates));
  }

  /** A minted receipt binds its result: it passes the buyer's comparison only for a text
      with the same hash. */
  lemma ReceiptBindsResult(f: Functions, peer: string, s: GatedSession, p: Purchase, result: string, text: string)
    requires Sound(f, peer)
    requires VerifyPurchaseReceipt(f, p, text, Minted(f, s, result, false, Some(peer))).Verified?
    ensures f.sha(text) == f.sha(result)
  {
    PrefixedIsInjective(f.sha(text), f.sha(result));
  }
}
