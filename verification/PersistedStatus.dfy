/** The CMOS tokens that remember status bits across a reset. */
module PersistedStatus {
  import opened CmosTypes
  import opened BitFields
  import opened CmosModel
  import opened Coherence
  import opened TokenLaws
  import opened StatusUpdates

  /** The token that remembers a persisted bit. */
  function TokenFor(c: Config, f: Flag): Token
    requires f in PERSISTED
  {
    if f == BadBattery then c.batteryBad
    else if f == BadChecksum then c.checksumBad
    else if f == DefaultsLoaded then c.defaultsLoaded
    else c.firstBoot
  }

  /** Two fields share no bit. */
  predicate Apart(t: Token, t': Token) {
    ProperField(t) && ProperField(t') && (t.address == t'.address ==> DisjointFields(t, t'))
  }

  ghost predicate StatusTokensApart(c: Config) {
    forall f, g :: f in PERSISTED && g in PERSISTED && f != g ==> Apart(TokenFor(c, f), TokenFor(c, g))
  }

  predicate Remembers(s: State, f: Flag)
    requires f in PERSISTED
  {
    ProperField(TokenFor(s.cfg, f)) && ReadField(s, TokenFor(s.cfg, f), 0) == 1
  }

  lemma StatusTokenFacts(s: State, f: Flag)
    requires Steady(s) && f in PERSISTED
    ensures var t := TokenFor(s.cfg, f);
      ProperField(t) && Managed(s.cfg, t.address) && !IsChecksumRegister(s.cfg, t.address)
      && Exists(s, Reach(s, t.address)) && !Overflows(1, t)
  {
    hide Overflows;
    OneBitFits(TokenFor(s.cfg, f));
    ManagedRegisterExists(s, TokenFor(s.cfg, f).address);
  }

  /** Persisting one bit: it is remembered, and what the others remember stays. */
  lemma PersistRemembers(s: State, bits: Bitmap, f: Flag, g: Flag)
    requires Steady(s) && StatusTokensApart(s.cfg) && f in PERSISTED && g in PERSISTED
    ensures var s' := Persist(s, bits, f, TokenFor(s.cfg, f));
      && Steady(s')
      && (Remembers(s', g) <==> if f == g && f in bits then true else Remembers(s, g))
  {
    hide Steady, Overflows, WriteField, ReadField, Reach, TokenFor, DisjointFields, StatusTokensApart;
    StatusTokenFacts(s, f);
    StatusTokenFacts(s, g);
    var t, t' := TokenFor(s.cfg, f), TokenFor(s.cfg, g);
    if f in bits {
      WriteFieldView(s, t, 1, t'.address);
      WriteFieldSteady(s, t, 1);
      if f == g {
        WriteThenRead(s, t, 1, 0);
      } else {
        StatusTokensApartFact(s.cfg, f, g);
        WriteKeepsOtherFields(s, t, 1, t', 0);
      }
    }
  }

  lemma StatusTokensApartFact(c: Config, f: Flag, g: Flag)
    requires StatusTokensApart(c) && f in PERSISTED && g in PERSISTED && f != g
    ensures Apart(TokenFor(c, f), TokenFor(c, g))
  {
  }

  lemma WriteFieldSteady(s: State, t: Token, v: byte)
    requires Steady(s) && ProperField(t)
    ensures Steady(WriteField(s, t, v))
  {
    hide Layout, Replace, Overflows, Merge, Encode, FieldMask, Reach;
    var c := Reach(s, t.address);
    var after := Merge(Peek(s, c, 0), FieldMask(t), Encode(v, t));
    ReplaceShape(s, t.address, c, after);
    SteadinessKept(s, Replace(s, t.address, c, after));
  }

  lemma PersistAllRemembers(s: State, bits: Bitmap, g: Flag)
    requires Steady(s) && StatusTokensApart(s.cfg) && g in PERSISTED
    ensures Remembers(PersistAll(s, bits), g) <==> g in bits || Remembers(s, g)
  {
    hide Persist, Steady, Remembers, StatusTokensApart;
    var s1 := Persist(s, bits, BadBattery, s.cfg.batteryBad);
    var s2 := Persist(s1, bits, BadChecksum, s.cfg.checksumBad);
    var s3 := Persist(s2, bits, DefaultsLoaded, s.cfg.defaultsLoaded);
    PersistRemembers(s, bits, BadBattery, g);
    PersistRemembers(s1, bits, BadChecksum, g);
    PersistRemembers(s2, bits, DefaultsLoaded, g);
    PersistRemembers(s3, bits, FirstBootDetected, g);
  }

  lemma MirrorsDoNotForget(s: State, bits: Bitmap, on: bool, g: Flag)
    requires Steady(s) && g in PERSISTED
    ensures Remembers(SyncHob(SyncLegacy(s, bits, on)), g) <==> Remembers(s, g)
  {
    hide LegacyByte, Decode, NotChecksummed, Unmanaged;
  }

  /** On usable CMOS a raised bit is remembered by its own token and by no other;
      on unusable CMOS, and when a bit is lowered, the tokens stay as they are. */
  lemma StatusIsRemembered(s: State, bits: Bitmap, on: bool, g: Flag)
    requires Steady(s) && StatusTokensApart(s.cfg) && g in PERSISTED
    requires bits !! ROUTING
    ensures Remembers(SetClear(s, bits, on), g) <==>
      (on && IsUsable in s.status && g in bits) || Remembers(s, g)
  {
    hide PersistAll, SyncLegacy, SyncHob, Layout, ReadField, SameStore, StatusTokensApart;
    hide StatusLayout, RangeLayout, ChecksumLayout;
    var s1 := Assign(s, bits, on);
    LayoutParts(s.cfg);
    assert SameRouting(s, s1);
    SteadinessKept(s, s1);
    AssignKeepsFields(s, bits, on, g);
    var s2 := if on && IsUsable in s1.status then PersistAll(s1, bits) else s1;
    PersistAllIsQuiet(s1, bits);
    PersistAllRemembers(s1, bits, g);
    if s2 != s1 { SteadinessKept(s1, s2); }
    MirrorsDoNotForget(s2, bits, on, g);
  }

  lemma AssignKeepsFields(s: State, bits: Bitmap, on: bool, g: Flag)
    requires bits !! ROUTING && g in PERSISTED
    ensures Remembers(Assign(s, bits, on), g) <==> Remembers(s, g)
  {
    hide Decode;
    RoutingDecidesReach(s, Assign(s, bits, on), TokenFor(s.cfg, g).address);
  }

  // ---- Tokens that share the status register -----------------------------------------------------

  /** The field overlaps none of the four status tokens. */
  ghost predicate ApartFromStatus(c: Config, t: Token) {
    forall f :: f in PERSISTED ==> Apart(TokenFor(c, f), t)
  }

  lemma PersistKeepsField(s: State, bits: Bitmap, f: Flag, t: Token, initial: byte)
    requires Steady(s) && f in PERSISTED && ApartFromStatus(s.cfg, t) && ProperField(t)
    requires Managed(s.cfg, t.address) && !IsChecksumRegister(s.cfg, t.address)
    ensures var s' := Persist(s, bits, f, TokenFor(s.cfg, f));
      && Steady(s') && s'.cfg == s.cfg && ReadField(s', t, initial) == ReadField(s, t, initial)
  {
    hide Steady, Overflows, WriteField, ReadField, Reach, TokenFor, DisjointFields;
    StatusTokenFacts(s, f);
    FieldExists(s, t);
    if f in bits {
      WriteFieldSteady(s, TokenFor(s.cfg, f), 1);
      WriteKeepsOtherFields(s, TokenFor(s.cfg, f), 1, t, initial);
    }
  }

  lemma FieldExists(s: State, t: Token)
    requires Steady(s) && Managed(s.cfg, t.address)
    ensures Exists(s, Reach(s, t.address))
  {
    ManagedRegisterExists(s, t.address);
  }

  /** A status update leaves every field of a managed register alone that is neither a
      status token nor on the checksum, also the free bits of the status register. */
  lemma StatusUpdateKeepsField(s: State, bits: Bitmap, on: bool, t: Token, initial: byte)
    requires Steady(s) && bits !! ROUTING && ApartFromStatus(s.cfg, t) && ProperField(t)
    requires Managed(s.cfg, t.address) && !IsChecksumRegister(s.cfg, t.address)
    ensures ReadField(SetClear(s, bits, on), t, initial) == ReadField(s, t, initial)
  {
    hide Persist, Steady, ReadField, ApartFromStatus, SyncHob, SyncLegacy;
    var s0 := Assign(s, bits, on);
    assert SameRouting(s, s0);
    SteadinessKept(s, s0);
    AssignKeepsField(s, bits, on, t, initial);
    var s1 := Persist(s0, bits, BadBattery, s.cfg.batteryBad);
    var s2 := Persist(s1, bits, BadChecksum, s.cfg.checksumBad);
    var s3 := Persist(s2, bits, DefaultsLoaded, s.cfg.defaultsLoaded);
    PersistKeepsField(s0, bits, BadBattery, t, initial);
    PersistKeepsField(s1, bits, BadChecksum, t, initial);
    PersistKeepsField(s2, bits, DefaultsLoaded, t, initial);
    PersistKeepsField(s3, bits, FirstBootDetected, t, initial);
    var s4 := if on && IsUsable in s0.status then PersistAll(s0, bits) else s0;
    MirrorsKeepField(s4, bits, on, t, initial);
  }

  lemma AssignKeepsField(s: State, bits: Bitmap, on: bool, t: Token, initial: byte)
    requires bits !! ROUTING && ProperField(t)
    ensures ReadField(Assign(s, bits, on), t, initial) == ReadField(s, t, initial)
  {
    hide Decode;
    RoutingDecidesReach(s, Assign(s, bits, on), t.address);
  }

  lemma MirrorsKeepField(s: State, bits: Bitmap, on: bool, t: Token, initial: byte)
    requires Steady(s) && ProperField(t) && Managed(s.cfg, t.address)
    ensures ReadField(SyncHob(SyncLegacy(s, bits, on)), t, initial) == ReadField(s, t, initial)
  {
    hide LegacyByte, Decode, NotChecksummed, Unmanaged;
  }
}
