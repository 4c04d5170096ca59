/**
 Requests and advices as messages: which requests pack, what a 0420 says about its original, and that
 the advice of a request that went out can always be framed, MACed and sent over the generated table.
 */
module Messages {
  import opened Numerals
  import opened Codec
  import opened CodecProofs
  import opened Store
  import opened Frames
  import opened Mac
  import Mux

  predicate Digits(s: string, width: nat) {
    |s| == width && IsNumeral(s, 10)
  }

  // Packing, element by element.

  predicate Fits(n: int, v: string) {
    EntryOf(n).Used? && 1 <= n <= 128 && CheckValue(EntryOf(n).spec, v).Ok?
  }

  lemma FitsIsPacking(n: int, v: string)
    ensures Fits(n, v) <==> PackField(MCN_87A(), n, v).Ok?
  {
  }

  predicate AllFit(fields: Elements) {
    forall n :: n in fields ==> Fits(n, fields[n])
  }

  lemma FieldsPack(mti: string, fields: Elements)
    requires 1 !in fields
    ensures Pack(MCN_87A(), mti, fields).Ok? <==> Digits(mti, 4) && AllFit(fields)
  {
    PacksFieldByField(MCN_87A(), mti, fields);
    forall n | n in fields ensures Fits(n, fields[n]) <==> PackField(MCN_87A(), n, fields[n]).Ok? {
      FitsIsPacking(n, fields[n]);
    }
  }

  lemma PowersOfTen()
    ensures Pow(10, 12) == 1_000_000_000_000
  {
    assert Pow(10, 6) == 1_000_000;
  }

  /** "%012d" gives twelve digits for exactly these amounts. */
  lemma AmountDigits(amount: int)
    ensures Digits(AmountText(amount), 12) <==> 0 <= amount < 1_000_000_000_000
  {
    PowersOfTen();
    if amount < 0 {
      assert AmountText(amount)[0] == '-';
    } else {
      var text := Format(amount, 10);
      ParseFormat(amount, 10);
      ParsePad(text, 12, 10);
      if amount < Pow(10, 12) {
        FormatWidth(amount, 10, 12);
      } else {
        ParseBound(PadLeft(text, 12), 10);
      }
    }
  }

  // Requests.

  datatype Card = Card(pan: string, expiry: string)

  /** sendPurchase, createPreAuth, createRefund, createBalanceInquiry and createCompletion, with finalizeFields. */
  function RequestMessage(req: Request, card: Card): Elements
    requires req.sentAt.Some?
  {
    match req.tranType
    case Completion => CompletionAdvice(req)
    case Balance => CardMessage(req, card)
    case Refund => MoneyMessage(req, card)
    case PreAuth => MoneyMessage(req, card)[25 := "06"]
    case Purchase => MoneyMessage(req, card)[12 := req.sentAt.value.de12][13 := req.sentAt.value.de13]
  }

  /** The elements every request with a card has. */
  function CardMessage(req: Request, card: Card): Elements
    requires req.sentAt.Some?
  {
    map[
      2 := card.pan,
      3 := req.processingCode,
      7 := req.sentAt.value.de7,
      11 := req.stan,
      14 := card.expiry,
      15 := OriginalDE15(req),
      22 := req.posEntryMode,
      32 := ACQUIRER_ID,
      37 := req.rrn,
      41 := req.terminalId,
      42 := req.merchantId
    ]
  }

  function MoneyMessage(req: Request, card: Card): Elements
    requires req.sentAt.Some?
  {
    CardMessage(req, card)[4 := AmountText(req.amount)][49 := req.currency]
  }

  predicate CommonColumns(req: Request)
    requires req.sentAt.Some?
  {
    && Digits(req.processingCode, 6) && Digits(req.sentAt.value.de7, 10) && Digits(req.stan, 6)
    && Digits(OriginalDE15(req), 4) && |req.terminalId| == 8 && |req.merchantId| == 15
  }

  predicate CardColumns(req: Request, card: Card)
    requires req.sentAt.Some?
  {
    && CommonColumns(req) && |req.rrn| == 12 && Digits(req.posEntryMode, 3)
    && |card.pan| <= 19 && IsNumeral(card.pan, 10) && Digits(card.expiry, 4)
  }

  predicate MoneyColumns(req: Request) {
    0 <= req.amount < 1_000_000_000_000 && Digits(req.currency, 3)
  }

  /** The columns of a request that packs, by its type. */
  predicate Columns(req: Request, card: Card)
    requires req.sentAt.Some?
  {
    match req.tranType
    case Completion => CompletionColumns(req)
    case Balance => CardColumns(req, card)
    case Refund => CardColumns(req, card) && MoneyColumns(req)
    case PreAuth => CardColumns(req, card) && MoneyColumns(req)
    case Purchase =>
      && CardColumns(req, card) && MoneyColumns(req)
      && Digits(req.sentAt.value.de12, 6) && Digits(req.sentAt.value.de13, 4)
  }

  lemma CardElementFits(req: Request, card: Card, n: int)
    requires req.sentAt.Some? && CardColumns(req, card) && n in CardMessage(req, card)
    ensures Fits(n, CardMessage(req, card)[n])
  {
  }

  lemma FittingCard(req: Request, card: Card)
    requires req.sentAt.Some? && AllFit(CardMessage(req, card))
    ensures CardColumns(req, card)
  {
    FittingParts(CardMessage(req, card));
  }

  /** What fits where: the widths of the columns. */
  lemma FittingParts(m: Elements)
    requires AllFit(m)
    ensures 2 in m ==> |m[2]| <= 19 && IsNumeral(m[2], 10)
    ensures 3 in m ==> Digits(m[3], 6)
    ensures 4 in m ==> Digits(m[4], 12)
    ensures 7 in m ==> Digits(m[7], 10)
    ensures 11 in m ==> Digits(m[11], 6)
    ensures 14 in m ==> Digits(m[14], 4)
    ensures 15 in m ==> Digits(m[15], 4)
    ensures 22 in m ==> Digits(m[22], 3)
    ensures 49 in m ==> Digits(m[49], 3)
    ensures 37 in m ==> |m[37]| == 12
    ensures 41 in m ==> |m[41]| == 8
    ensures 42 in m ==> |m[42]| == 15
  {
  }

  lemma CardFits(req: Request, card: Card)
    requires req.sentAt.Some?
    ensures AllFit(CardMessage(req, card)) <==> CardColumns(req, card)
  {
    if CardColumns(req, card) {
      forall n | n in CardMessage(req, card) ensures Fits(n, CardMessage(req, card)[n]) {
        CardElementFits(req, card, n);
      }
    } else if AllFit(CardMessage(req, card)) {
      FittingCard(req, card);
    }
  }

  /** Adding an element. */
  lemma FitsWith(fields: Elements, n: int, v: string)
    requires n !in fields
    ensures AllFit(fields[n := v]) <==> AllFit(fields) && Fits(n, v)
  {
    var more := fields[n := v];
    assert more[n] == v && forall k :: k in fields ==> k in more && more[k] == fields[k];
    if AllFit(more) {
      forall k | k in fields ensures Fits(k, fields[k]) {
        assert Fits(k, more[k]);
      }
    }
  }

  lemma MoneyFits(req: Request, card: Card)
    requires req.sentAt.Some?
    ensures AllFit(MoneyMessage(req, card)) <==> CardColumns(req, card) && MoneyColumns(req)
  {
    CardFits(req, card);
    AmountDigits(req.amount);
    FitsWith(CardMessage(req, card), 4, AmountText(req.amount));
    FitsWith(CardMessage(req, card)[4 := AmountText(req.amount)], 49, req.currency);
  }

  predicate CompletionColumns(req: Request)
    requires req.sentAt.Some?
  {
    CommonColumns(req) && MoneyColumns(req) && |req.originalRrn| == 12
  }

  lemma CompletionElementFits(req: Request, n: int)
    requires req.sentAt.Some? && CompletionColumns(req) && n in CompletionAdvice(req)
    ensures Fits(n, CompletionAdvice(req)[n])
  {
    AmountDigits(req.amount);
  }

  lemma FittingCompletion(req: Request)
    requires req.sentAt.Some? && AllFit(CompletionAdvice(req))
    ensures CompletionColumns(req)
  {
    AmountDigits(req.amount);
    FittingParts(CompletionAdvice(req));
  }

  lemma CompletionFits(req: Request)
    requires req.sentAt.Some?
    ensures AllFit(CompletionAdvice(req)) <==> CompletionColumns(req)
  {
    if CompletionColumns(req) {
      forall n | n in CompletionAdvice(req) ensures Fits(n, CompletionAdvice(req)[n]) {
        CompletionElementFits(req, n);
      }
    } else if AllFit(CompletionAdvice(req)) {
      FittingCompletion(req);
    }
  }

  lemma RequestFits(req: Request, card: Card)
    requires req.sentAt.Some?
    ensures AllFit(RequestMessage(req, card)) <==> Columns(req, card)
  {
    var money := MoneyMessage(req, card);
    match req.tranType
    case Completion => CompletionFits(req);
    case Balance => CardFits(req, card);
    case Refund => MoneyFits(req, card);
    case PreAuth =>
      MoneyFits(req, card);
      FitsWith(money, 25, "06");
    case Purchase =>
      MoneyFits(req, card);
      FitsWith(money, 12, req.sentAt.value.de12);
      FitsWith(money[12 := req.sentAt.value.de12], 13, req.sentAt.value.de13);
  }

  /** No request has an element above 64, nor one where a MAC goes. */
  lemma RequestElements(req: Request, card: Card)
    requires req.sentAt.Some?
    ensures forall n :: n in RequestMessage(req, card) ==> 1 < n < 64
  {
  }

  /**
   A request packs for its MAC if and only if its columns are well formed; and whatever they are, no
   request has an element above 64, so DE 64 is where its MAC belongs.
   */
  lemma RequestPacks(req: Request, card: Card, mti: string)
    requires req.sentAt.Some?
    ensures var fields := RequestMessage(req, card);
            && (Pack(MCN_87A(), mti, fields).Ok? <==> Digits(mti, 4) && Columns(req, card))
            && MacFieldFor(fields) == 64 && 64 !in fields && 128 !in fields
  {
    RequestElements(req, card);
    FieldsPack(mti, RequestMessage(req, card));
    RequestFits(req, card);
  }

  /** attachMAC: a request that packs, with its code in DE 64, has no secondary bitmap, arrives as built, and verifies. */
  lemma RequestArrives(req: Request, card: Card, mti: string, mac: MacFunction, key: Key)
    requires req.sentAt.Some?
    requires forall packed :: mac(packed, key).Some? && IsCode(mac(packed, key).value)
    ensures var sent := WithMac(MCN_87A(), mac, key, mti, RequestMessage(req, card), 64);
            && (sent.Some? <==> Digits(mti, 4) && Columns(req, card))
            && (sent.Some? ==>
                  && Pack(MCN_87A(), mti, sent.value).Ok?
                  && Unpack(MCN_87A(), Pack(MCN_87A(), mti, sent.value).value) == Ok((mti, sent.value))
                  && Verifies(MCN_87A(), mac, [key], mti, sent.value)
                  && MacFieldOf(sent.value) == Some(64) && !NeedsSecondary(sent.value))
  {
    var fields := RequestMessage(req, card);
    RequestPacks(req, card, mti);
    if WithMac(MCN_87A(), mac, key, mti, fields, 64).Some? {
      GeneratedTableHasMacFields();
      MacedMessageVerifies(MCN_87A(), mac, key, mti, fields, 64, [key]);
      MacFieldAgreesWithBitmap(MCN_87A(), mac, key, mti, fields);
    }
  }

  // Reversals.

  /** The original's MTI; a row logged before it was written is a purchase. */
  function OriginalMti(req: Request): string {
    if req.mti == "" then "0200" else req.mti
  }

  /** What DE 90 names of the original, in the widths a request that packed has. */
  predicate Named(req: Request) {
    req.sentAt.Some? && Digits(OriginalMti(req), 4) && Digits(req.stan, 6) && Digits(req.sentAt.value.de7, 10)
  }

  lemma Concatenated(a: string, b: string, c: string, d: string)
    requires Digits(a, 4) && Digits(b, 6) && Digits(c, 10) && Digits(d, 22)
    ensures var whole := a + b + c + d;
            Digits(whole, 42) && whole[..4] == a && whole[4..10] == b && whole[10..20] == c && whole[20..] == d
  {
  }

  const INSTITUTIONS := "00000" + ACQUIRER_ID + "00000000000"

  lemma ReversalDE90(req: Request, reason: string)
    requires Named(req)
    ensures 90 in ReversalAdvice(req, reason)
    ensures ReversalAdvice(req, reason)[90] == OriginalMti(req) + req.stan + req.sentAt.value.de7 + INSTITUTIONS
    ensures Digits(INSTITUTIONS, 22)
  {
    var head := OriginalMti(req) + req.stan + req.sentAt.value.de7;
    assert head + ("00000" + ACQUIRER_ID) + "00000000000" == head + INSTITUTIONS;
  }

  /** DE 90 is 42 digits: the original's MTI, STAN, DE 7, acquirer and forwarder. */
  lemma ReversalNamesOriginal(req: Request, reason: string)
    requires Named(req)
    ensures var de90 := ReversalAdvice(req, reason)[90];
            && Digits(de90, 42)
            && de90[..4] == OriginalMti(req)
            && de90[4..10] == req.stan
            && de90[10..20] == req.sentAt.value.de7
            && de90[20..] == INSTITUTIONS
  {
    ReversalDE90(req, reason);
    Concatenated(OriginalMti(req), req.stan, req.sentAt.value.de7, INSTITUTIONS);
  }

  /** So a 0420 names one original: equal DE 90s have equal MTI, STAN and DE 7, and different ones differ. */
  lemma OriginalIsNamedOnce(req: Request, other: Request, reason: string, another: string)
    requires Named(req) && Named(other)
    ensures ReversalAdvice(req, reason)[90] == ReversalAdvice(other, another)[90] <==>
            OriginalMti(req) == OriginalMti(other) && req.stan == other.stan && req.sentAt.value.de7 == other.sentAt.value.de7
  {
    ReversalNamesOriginal(req, reason);
    ReversalNamesOriginal(other, another);
    ReversalDE90(req, reason);
    ReversalDE90(other, another);
  }

  /**
   A row whose request was sent: it packed for its MAC. The clock formats DE 12 and DE 13, which only a
   purchase carries itself.
   */
  predicate WentOut(req: Request, card: Card) {
    && req.sentAt.Some? && req.tranType in {Purchase, PreAuth, Refund}
    && Digits(OriginalMti(req), 4) && Columns(req, card)
    && Digits(req.sentAt.value.de12, 6) && Digits(req.sentAt.value.de13, 4)
  }

  lemma PackedWentOut(req: Request, card: Card)
    requires req.sentAt.Some? && req.tranType in {Purchase, PreAuth, Refund}
    requires Pack(MCN_87A(), OriginalMti(req), RequestMessage(req, card)).Ok?
    requires Digits(req.sentAt.value.de12, 6) && Digits(req.sentAt.value.de13, 4)
    ensures WentOut(req, card)
  {
    RequestPacks(req, card, OriginalMti(req));
  }

  lemma ReversalFits(req: Request, card: Card, reason: string)
    requires WentOut(req, card) && |reason| == 2
    ensures AllFit(ReversalAdvice(req, reason))
  {
    forall n | n in ReversalAdvice(req, reason) ensures Fits(n, ReversalAdvice(req, reason)[n]) {
      ReversalElementFits(req, card, reason, n);
    }
  }

  lemma ReversalElementFits(req: Request, card: Card, reason: string, n: int)
    requires WentOut(req, card) && |reason| == 2 && n in ReversalAdvice(req, reason)
    ensures Fits(n, ReversalAdvice(req, reason)[n])
  {
    AmountDigits(req.amount);
    ReversalNamesOriginal(req, reason);
  }

  lemma ReversalKeys(req: Request, reason: string)
    requires EverSent(req)
    ensures var advice := ReversalAdvice(req, reason);
            90 in advice && forall n :: n in {1, 2, 7, 11, 64, 128} ==> n !in advice
  {
  }

  /** What the worker frames for a reversal: the stored elements, its identity and the card's PAN. */
  function ReversalFrame(req: Request, reason: string, stan: string, de7: string, pan: string): Elements
    requires EverSent(req)
  {
    ReversalAdvice(req, reason)[11 := stan][7 := de7][2 := pan]
  }

  lemma IdentityPacks(advice: Elements, stan: string, de7: string, pan: string, mti: string)
    requires 90 in advice && forall n :: n in {1, 2, 7, 11, 64, 128} ==> n !in advice
    requires AllFit(advice) && Digits(stan, 6) && Digits(de7, 10) && |pan| <= 19 && IsNumeral(pan, 10) && Digits(mti, 4)
    ensures var fields := advice[11 := stan][7 := de7][2 := pan];
            Pack(MCN_87A(), mti, fields).Ok? && MacFieldFor(fields) == 128 && 64 !in fields && 128 !in fields
  {
    FitsWith(advice, 11, stan);
    FitsWith(advice[11 := stan], 7, de7);
    FitsWith(advice[11 := stan][7 := de7], 2, pan);
    var fields := advice[11 := stan][7 := de7][2 := pan];
    FieldsPack(mti, fields);
    assert 90 in fields;
  }

  /** The 0420 of a request that went out packs, plain or as a repeat, and takes its MAC in DE 128. */
  lemma ReversalPacks(req: Request, card: Card, reason: string, stan: string, de7: string, mti: string)
    requires WentOut(req, card) && |reason| == 2 && Digits(stan, 6) && Digits(de7, 10)
    requires mti == "0420" || mti == "0421"
    ensures var fields := ReversalFrame(req, reason, stan, de7, card.pan);
            Pack(MCN_87A(), mti, fields).Ok? && MacFieldFor(fields) == 128 && 64 !in fields && 128 !in fields
  {
    ReversalFits(req, card, reason);
    ReversalKeys(req, reason);
    IdentityPacks(ReversalAdvice(req, reason), stan, de7, card.pan, mti);
  }

  /** So whatever the MAC function, as long as it yields eight bytes, the issuer gets what was queued and verifies it. */
  lemma ReversalArrives(req: Request, card: Card, reason: string, stan: string, de7: string, mti: string, mac: MacFunction, key: Key)
    requires WentOut(req, card) && |reason| == 2 && Digits(stan, 6) && Digits(de7, 10)
    requires mti == "0420" || mti == "0421"
    requires forall packed :: mac(packed, key).Some? && IsCode(mac(packed, key).value)
    ensures var sent := WithMac(MCN_87A(), mac, key, mti, ReversalFrame(req, reason, stan, de7, card.pan), 128);
            && sent.Some? && Pack(MCN_87A(), mti, sent.value).Ok?
            && Unpack(MCN_87A(), Pack(MCN_87A(), mti, sent.value).value) == Ok((mti, sent.value))
            && Verifies(MCN_87A(), mac, [key], mti, sent.value)
  {
    ReversalPacks(req, card, reason, stan, de7, mti);
    GeneratedTableHasMacFields();
    MacedMessageVerifies(MCN_87A(), mac, key, mti, ReversalFrame(req, reason, stan, de7, card.pan), 128, [key]);
  }

  lemma CompletionElements(req: Request)
    requires req.sentAt.Some?
    ensures forall n :: n in CompletionAdvice(req) ==> 1 < n < 64
  {
  }

  /** A completion that packed once packs again as its repeat, rebuilt from its row, with its MAC in DE 64. */
  lemma CompletionPacks(req: Request, mti: string, again: string)
    requires req.sentAt.Some? && Pack(MCN_87A(), mti, CompletionAdvice(req)).Ok? && Digits(again, 4)
    ensures var fields := CompletionAdvice(req);
            Pack(MCN_87A(), again, fields).Ok? && MacFieldFor(fields) == 64 && 64 !in fields && 128 !in fields
  {
    CompletionElements(req);
    FieldsPack(mti, CompletionAdvice(req));
    FieldsPack(again, CompletionAdvice(req));
  }

  // What the issuer reads.

  function Get(fields: Elements, n: int): string {
    if n in fields then fields[n] else ""
  }

  /** DE 4 is the amount in decimal. */
  predicate SaysAmount(fields: Elements, amount: int) {
    4 in fields && IsNumeral(fields[4], 10) && Parse(fields[4], 10) == amount
  }

  lemma AmountReads(amount: int)
    requires 0 <= amount
    ensures IsNumeral(AmountText(amount), 10) && Parse(AmountText(amount), 10) == amount
  {
    ParseFormat(amount, 10);
    ParsePad(Format(amount, 10), 12, 10);
  }

  /** The date of DE 15. */
  predicate SaysDate(text: string, req: Request)
    requires req.sentAt.Some?
  {
    if req.businessDate != "" then text == req.businessDate
    else |req.sentAt.value.de7| >= 4 ==> text == req.sentAt.value.de7[..4]
  }

  /** The identity the issuer and the multiplexer know a message by, and where it comes from. */
  predicate SaysOrigin(fields: Elements, req: Request)
    requires req.sentAt.Some?
  {
    && Get(fields, 11) == req.stan && Get(fields, 7) == req.sentAt.value.de7
    && Get(fields, 41) == req.terminalId && Get(fields, 42) == req.merchantId && Get(fields, 32) == "970499"
    && Get(fields, 3) == req.processingCode && SaysDate(Get(fields, 15), req)
  }

  predicate SaysCard(fields: Elements, req: Request, card: Card) {
    && 2 in fields && fields[2] == card.pan && Get(fields, 14) == card.expiry
    && Get(fields, 22) == req.posEntryMode && Get(fields, 37) == req.rrn
  }

  predicate SaysMoney(fields: Elements, req: Request) {
    SaysAmount(fields, req.amount) && Get(fields, 49) == req.currency
  }

  /** Which elements only some types have. */
  predicate Shape(fields: Elements, card: bool, money: bool, clock: bool, condition: bool) {
    && (2 in fields <==> card) && (14 in fields <==> card) && (22 in fields <==> card)
    && (4 in fields <==> money) && (49 in fields <==> money)
    && (12 in fields <==> clock) && (13 in fields <==> clock) && (25 in fields <==> condition)
  }

  /** A request as its row says, element by element, and which elements its type has. */
  predicate SaysRequest(fields: Elements, req: Request, card: Card)
    requires req.sentAt.Some?
  {
    && SaysOrigin(fields, req)
    && match req.tranType
       case Completion => SaysMoney(fields, req) && Get(fields, 37) == req.originalRrn && Shape(fields, false, true, false, false)
       case Balance => SaysCard(fields, req, card) && Shape(fields, true, false, false, false)
       case Refund => SaysCard(fields, req, card) && SaysMoney(fields, req) && Shape(fields, true, true, false, false)
       case PreAuth =>
         && SaysCard(fields, req, card) && SaysMoney(fields, req) && Shape(fields, true, true, false, true)
         && fields[25] == "06"
       case Purchase =>
         && SaysCard(fields, req, card) && SaysMoney(fields, req) && Shape(fields, true, true, true, false)
         && fields[12] == req.sentAt.value.de12 && fields[13] == req.sentAt.value.de13
  }

  lemma CardTells(req: Request, card: Card)
    requires req.sentAt.Some?
    ensures var m := CardMessage(req, card);
            SaysOrigin(m, req) && SaysCard(m, req, card) && Shape(m, true, false, false, false)
  {
  }

  lemma MoneyTells(req: Request, card: Card)
    requires req.sentAt.Some? && 0 <= req.amount
    ensures var m := MoneyMessage(req, card);
            SaysOrigin(m, req) && SaysCard(m, req, card) && SaysMoney(m, req) && Shape(m, true, true, false, false)
  {
    CardTells(req, card);
    AmountReads(req.amount);
    var m := CardMessage(req, card);
    assert MoneyMessage(req, card) == m[4 := AmountText(req.amount)][49 := req.currency];
    Extended(m, MoneyMessage(req, card), {4, 49});
  }

  /** Elements outside the added ones are as they were. */
  lemma Extended(fields: Elements, more: Elements, added: set<int>)
    requires forall n :: n in more <==> n in fields || n in added
    requires forall n :: n in fields && n !in added ==> more[n] == fields[n]
    ensures forall n :: n !in added ==> Get(more, n) == Get(fields, n)
  {
  }

  lemma CompletionTells(req: Request)
    requires req.sentAt.Some? && 0 <= req.amount
    ensures var m := CompletionAdvice(req);
            && SaysOrigin(m, req) && SaysMoney(m, req) && Get(m, 37) == req.originalRrn && Shape(m, false, true, false, false)
  {
    AmountReads(req.amount);
  }

  lemma RequestTells(req: Request, card: Card)
    requires req.sentAt.Some? && (req.tranType != Balance ==> 0 <= req.amount)
    ensures SaysRequest(RequestMessage(req, card), req, card)
  {
    match req.tranType
    case Completion => CompletionTells(req);
    case Balance => CardTells(req, card);
    case Refund => MoneyTells(req, card);
    case PreAuth => PreAuthTells(req, card, MoneyMessage(req, card));
    case Purchase => PurchaseTells(req, card, MoneyMessage(req, card));
  }

  lemma PreAuthTells(req: Request, card: Card, money: Elements)
    requires req.sentAt.Some? && 0 <= req.amount && req.tranType == PreAuth && money == MoneyMessage(req, card)
    ensures SaysRequest(money[25 := "06"], req, card)
  {
    MoneyTells(req, card);
    Extended(money, money[25 := "06"], {25});
  }

  lemma PurchaseTells(req: Request, card: Card, money: Elements)
    requires req.sentAt.Some? && 0 <= req.amount && req.tranType == Purchase && money == MoneyMessage(req, card)
    ensures SaysRequest(money[12 := req.sentAt.value.de12][13 := req.sentAt.value.de13], req, card)
  {
    MoneyTells(req, card);
    Extended(money, money[12 := req.sentAt.value.de12][13 := req.sentAt.value.de13], {12, 13});
  }

  /** With a MAC attached it says the same. */
  lemma MacChangesNothing(fields: Elements, text: string, req: Request, card: Card)
    requires req.sentAt.Some? && SaysRequest(fields, req, card)
    ensures SaysRequest(fields[64 := text], req, card)
  {
    Extended(fields, fields[64 := text], {64});
  }

  /**
   What the issuer unpacks of a request, whatever its MAC, is the row it was made from; and it is known to
   the multiplexer by the row's STAN and moment.
   */
  lemma IssuerReadsRequest(req: Request, card: Card, mti: string, text: string, wire: string)
    requires req.sentAt.Some? && Columns(req, card)
    requires Pack(MCN_87A(), mti, RequestMessage(req, card)[64 := text]) == Ok(wire)
    ensures Unpack(MCN_87A(), wire) == Ok((mti, RequestMessage(req, card)[64 := text]))
    ensures SaysRequest(RequestMessage(req, card)[64 := text], req, card)
    ensures Mux.KeyOf(RequestMessage(req, card)[64 := text]) == Mux.MuxKey(req.stan, req.sentAt.value.de7)
  {
    RequestTells(req, card);
    MacChangesNothing(RequestMessage(req, card), text, req, card);
    TableWellFormed();
    UnpackUndoesPack(MCN_87A(), mti, RequestMessage(req, card)[64 := text]);
  }

  /** A 0420: what it reverses and why, but for the identity the worker gives it. */
  predicate SaysReversal(fields: Elements, req: Request, reason: string)
    requires req.sentAt.Some?
  {
    && Get(fields, 39) == reason && SaysAmount(fields, req.amount) && Get(fields, 49) == req.currency
    && Get(fields, 3) == req.processingCode && Get(fields, 22) == req.posEntryMode && Get(fields, 25) == "00"
    && Get(fields, 12) == req.sentAt.value.de12 && Get(fields, 13) == req.sentAt.value.de13
    && SaysDate(Get(fields, 15), req)
    && Get(fields, 32) == "970499" && Get(fields, 37) == req.rrn
    && Get(fields, 41) == req.terminalId && Get(fields, 42) == req.merchantId
    && Get(fields, 90) == OriginalMti(req) + req.stan + req.sentAt.value.de7 + "0000097049900000000000"
  }

  lemma Institutions()
    ensures INSTITUTIONS == "0000097049900000000000"
  {
  }

  /** The elements that repeat the original. */
  lemma ReversalPlain(req: Request, reason: string, advice: Elements)
    requires EverSent(req) && advice == ReversalAdvice(req, reason)
    ensures Get(advice, 3) == req.processingCode && Get(advice, 4) == AmountText(req.amount) && 4 in advice
    ensures Get(advice, 12) == req.sentAt.value.de12 && Get(advice, 13) == req.sentAt.value.de13 && Get(advice, 15) == OriginalDE15(req)
    ensures Get(advice, 22) == req.posEntryMode && Get(advice, 25) == "00" && Get(advice, 32) == "970499" && Get(advice, 37) == req.rrn
    ensures Get(advice, 39) == reason && Get(advice, 41) == req.terminalId && Get(advice, 42) == req.merchantId && Get(advice, 49) == req.currency
  {
  }

  lemma ReversalTells(req: Request, reason: string)
    requires EverSent(req) && Named(req) && 0 <= req.amount
    ensures SaysReversal(ReversalAdvice(req, reason), req, reason)
  {
    AmountReads(req.amount);
    ReversalDE90(req, reason);
    ReversalPlain(req, reason, ReversalAdvice(req, reason));
    Institutions();
  }

  /** The identity and the MAC leave the rest. */
  lemma IdentityChangesNothing(advice: Elements, stan: string, de7: string, pan: string, text: string, req: Request, reason: string)
    requires req.sentAt.Some? && SaysReversal(advice, req, reason)
    ensures var sent := advice[11 := stan][7 := de7][2 := pan][128 := text];
            SaysReversal(sent, req, reason) && Get(sent, 11) == stan && Get(sent, 7) == de7 && Get(sent, 2) == pan
  {
    Extended(advice, advice[11 := stan][7 := de7][2 := pan][128 := text], {2, 7, 11, 128});
  }

  /** What the issuer unpacks of a 0420 is the original's row, the reason, and the identity the worker gave it. */
  lemma IssuerReadsReversal(req: Request, card: Card, reason: string, stan: string, de7: string, mti: string, text: string, wire: string)
    requires WentOut(req, card)
    requires Pack(MCN_87A(), mti, ReversalFrame(req, reason, stan, de7, card.pan)[128 := text]) == Ok(wire)
    ensures var sent := ReversalFrame(req, reason, stan, de7, card.pan)[128 := text];
            && Unpack(MCN_87A(), wire) == Ok((mti, sent))
            && SaysReversal(sent, req, reason) && Get(sent, 11) == stan && Get(sent, 7) == de7 && Get(sent, 2) == card.pan
  {
    ReversalTells(req, reason);
    IdentityChangesNothing(ReversalAdvice(req, reason), stan, de7, card.pan, text, req, reason);
    TableWellFormed();
    UnpackUndoesPack(MCN_87A(), mti, ReversalFrame(req, reason, stan, de7, card.pan)[128 := text]);
  }
}
