/** The deduplication key of a CDC event: {project_id}-{lsn}-{txid}. */
module EventIdentity {
  import opened Text

  const TWO32: nat := 0x1_0000_0000
  const TWO64: nat := 0x1_0000_0000_0000_0000

  /** A WAL position: PostgreSQL's 64-bit byte offset. */
  type Lsn = n: nat | n < 0x1_0000_0000_0000_0000

  /** The text form of a WAL position: both halves in hexadecimal, separated by a slash. */
  function LsnText(lsn: Lsn): string {
    Numeral(lsn / TWO32, Hex) + ['/'] + Numeral(lsn % TWO32, Hex)
  }

  function BuildEventID(projectID: string, lsn: Lsn, xid: nat): string {
    projectID + ['-'] + LsnText(lsn) + ['-'] + Numeral(xid, Decimal)
  }

  lemma NumeralLacks(n: nat, r: Radix, c: char)
    requires !IsDigit(c, r)
    ensures c !in Numeral(n, r)
  {
    NumeralRoundTrip(n, r);
  }

  lemma LsnTextInjective(a: Lsn, b: Lsn)
    requires LsnText(a) == LsnText(b)
    ensures a == b
  {
    var ah, al, bh, bl := a / TWO32, a % TWO32, b / TWO32, b % TWO32;
    NumeralLacks(al, Hex, '/');
    NumeralLacks(bl, Hex, '/');
    LastSeparatorUnique(Numeral(ah, Hex), Numeral(al, Hex), Numeral(bh, Hex), Numeral(bl, Hex), '/');
    NumeralRoundTrip(ah, Hex);
    NumeralRoundTrip(bh, Hex);
    NumeralRoundTrip(al, Hex);
    NumeralRoundTrip(bl, Hex);
    assert a == ah * TWO32 + al && b == bh * TWO32 + bl;
  }

  lemma LsnTextLacksDash(lsn: Lsn)
    ensures '-' !in LsnText(lsn)
  {
    NumeralLacks(lsn / TWO32, Hex, '-');
    NumeralLacks(lsn % TWO32, Hex, '-');
  }

  /**
   Event IDs collide only for the same project, position and transaction, for every project ID
   string, including ones that contain '-' or look like an LSN themselves.
   */
  lemma BuildEventIDInjective(p: string, lsn: Lsn, xid: nat, p': string, lsn': Lsn, xid': nat)
    ensures BuildEventID(p, lsn, xid) == BuildEventID(p', lsn', xid')
            <==> p == p' && lsn == lsn' && xid == xid'
  {
    if BuildEventID(p, lsn, xid) == BuildEventID(p', lsn', xid') {
      NumeralLacks(xid, Decimal, '-');
      NumeralLacks(xid', Decimal, '-');
      LastSeparatorUnique(p + ['-'] + LsnText(lsn), Numeral(xid, Decimal),
                          p' + ['-'] + LsnText(lsn'), Numeral(xid', Decimal), '-');
      NumeralRoundTrip(xid, Decimal);
      NumeralRoundTrip(xid', Decimal);
      LsnTextLacksDash(lsn);
      LsnTextLacksDash(lsn');
      LastSeparatorUnique(p, LsnText(lsn), p', LsnText(lsn'), '-');
      LsnTextInjective(lsn, lsn');
    }
  }

  /** A known ID: both halves of the position in upper-case hexadecimal, the transaction in decimal. */
  lemma KnownEventID()
    ensures BuildEventID("p1", 0x16_0B37_48A0, 740) == "p1-16/B3748A0-740"
  {
    assert 0x16_0B37_48A0 / TWO32 == 0x16 && 0x16_0B37_48A0 % TWO32 == 0x0B37_48A0;
    KnownNumerals();
    hide Numeral;
  }

  lemma KnownNumerals()
    ensures Numeral(0x16, Hex) == "16" && Numeral(740, Decimal) == "740" && Numeral(0x0B37_48A0, Hex) == "B3748A0"
  {
    assert Numeral(0x1, Hex) == "1" && Numeral(0xB, Hex) == "B";
    assert Numeral(7, Decimal) == "7" && Numeral(74, Decimal) == "74";
    assert Numeral(0xB3, Hex) == "B3" && Numeral(0xB37, Hex) == "B37" && Numeral(0xB374, Hex) == "B374";
    assert Numeral(0xB3748, Hex) == "B3748" && Numeral(0xB3748A, Hex) == "B3748A";
  }
}
