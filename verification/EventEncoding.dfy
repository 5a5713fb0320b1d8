/**
 What the publisher can put on the wire: events that have a JSON form, on subjects a NATS client
 accepts.
 */
module EventEncoding {
  import opened Text
  import opened CdcHandler
  import opened Subjects

  /** Type OIDs whose text becomes a floating-point number: float4, float8 and numeric. */
  predicate IsFloatOid(typeOid: nat) {
    typeOid == 700 || typeOid == 701 || typeOid == 1700
  }

  function Unsigned(text: string): string {
    if text != "" && (text[0] == '+' || text[0] == '-') then text[1..] else text
  }

  /** The spellings ParseFloat reads as an infinity or as not-a-number, in any letter case. */
  predicate NonFiniteText(text: string) {
    Lower(text) == "nan" || Lower(Unsigned(text)) == "inf" || Lower(Unsigned(text)) == "infinity"
  }

  lemma LowerTail(text: string)
    requires text != "" && (text[0] == '+' || text[0] == '-')
    ensures Lower(text) == [text[0]] + Lower(text[1..])
  {
  }

  lemma SignedWords(sign: char, tail: string)
    requires sign == '+' || sign == '-'
    ensures tail == "inf" || tail == "infinity" <==> [sign] + tail in {"+inf", "-inf", "+infinity", "-infinity"}
    ensures [sign] + tail !in {"nan", "inf", "infinity"}
  {
    var s := [sign] + tail;
    assert s[0] == sign && s[1..] == tail;
    assert "nan"[0] == 'n' && "inf"[0] == 'i' && "infinity"[0] == 'i';
    assert "+inf"[1..] == "inf" && "-inf"[1..] == "inf" && "+infinity"[1..] == "infinity" && "-infinity"[1..] == "infinity";
    assert ['+'] + "inf" == "+inf" && ['-'] + "inf" == "-inf";
    assert ['+'] + "infinity" == "+infinity" && ['-'] + "infinity" == "-infinity";
  }

  lemma NonFiniteIff(text: string)
    ensures NonFiniteText(text)
            <==> Lower(text) in {"nan", "inf", "+inf", "-inf", "infinity", "+infinity", "-infinity"}
  {
    if text != "" && (text[0] == '+' || text[0] == '-') {
      LowerTail(text);
      SignedWords(text[0], Lower(text[1..]));
    } else if text != "" {
      assert Lower(text)[0] == LowerChar(text[0]);
      assert LowerChar(text[0]) != '+' && LowerChar(text[0]) != '-';
    }
  }

  /** JSON has no number for infinities and not-a-number. */
  predicate CellMarshals(c: Cell) {
    c.Typed? && IsFloatOid(c.typeOid) ==> !NonFiniteText(c.text)
  }

  predicate RowMarshals(r: Row) {
    r.Some? ==> forall name :: name in r.value ==> CellMarshals(r.value[name])
  }

  /** Microseconds from the start of 2000 to the ends of years 0 to 9999, the years JSON times cover. */
  const FIRST_TIME: int := -63_113_904_000_000_000
  const END_TIME: int := 252_455_616_000_000_000

  predicate Marshals(e: CdcEvent) {
    RowMarshals(e.oldRow) && RowMarshals(e.newRow) && FIRST_TIME <= e.timestamp < END_TIME
  }

  predicate NoSpace(s: string) {
    forall i :: 0 <= i < |s| ==> s[i] != ' ' && s[i] != '\t' && s[i] != '\r' && s[i] != '\n'
  }

  predicate NoEmptyToken(s: string) {
    "" !in Tokens(s)
  }

  predicate Publishable(subject: string) {
    NoSpace(subject) && NoEmptyToken(subject)
  }

  lemma NoSpaceJoin(a: string, b: string)
    ensures NoSpace(a + b) <==> NoSpace(a) && NoSpace(b)
  {
    if NoSpace(a + b) {
      assert forall i :: 0 <= i < |a| ==> (a + b)[i] == a[i];
      assert forall i :: 0 <= i < |b| ==> (a + b)[|a| + i] == b[i];
    }
  }

  lemma LiteralsHaveNoSpace()
    ensures NoSpace(".") && NoSpace(".project-") && NoSpace(DATABASE)
    ensures NoSpace("insert") && NoSpace("update") && NoSpace("delete") && NoSpace("unknown")
  {
  }

  lemma OperationToken(op: string)
    ensures var o := OperationToSubject(op); o != "" && NoDot(o) && NoSpace(o)
  {
    LiteralsHaveNoSpace();
    hide Upper, NoSpace;
  }

  lemma ComposeNoSpace(prefix: string, op: string, projectID: string, name: string)
    ensures NoSpace(Compose(prefix, op, projectID, name))
            <==> NoSpace(prefix) && NoSpace(op) && NoSpace(projectID) && NoSpace(name)
  {
    LiteralsHaveNoSpace();
    hide NoSpace;
    NoSpaceJoin(prefix, ".");
    NoSpaceJoin(prefix + ".", op);
    NoSpaceJoin(prefix + "." + op, ".project-");
    NoSpaceJoin(prefix + "." + op + ".project-", projectID);
    NoSpaceJoin(prefix + "." + op + ".project-" + projectID, ".");
    NoSpaceJoin(prefix + "." + op + ".project-" + projectID + ".", name);
  }

  lemma OneToken(s: string)
    requires NoDot(s) && s != ""
    ensures NoEmptyToken(s)
  {
    TokensOfDotFree(s);
  }

  lemma DatabaseToken()
    ensures NoEmptyToken(DATABASE)
  {
    PrefixTokens(DATABASE);
    LiteralTokens();
    hide Tokens;
    assert EVENTS != "" && "database" != "";
  }

  lemma ProjectToken(projectID: string)
    requires NoDot(projectID)
    ensures NoEmptyToken("project-" + projectID)
  {
    var p := "project-" + projectID;
    assert NoDot(p) && p != "";
    OneToken(p);
  }

  /** Of a change's subject the table name alone decides whether it can be published. */
  lemma TablePublishableIff(projectID: string, op: string, table: string)
    requires NoDot(projectID) && NoSpace(projectID)
    ensures Publishable(CdcSubject(DATABASE, projectID, op, table)) <==> Publishable(table)
  {
    LiteralsHaveNoSpace();
    DatabaseToken();
    OperationToken(op);
    hide Tokens, NoSpace, Compose, OperationToSubject;
    var o := OperationToSubject(op);
    OneToken(o);
    ProjectToken(projectID);
    ComposeNoSpace(DATABASE, o, projectID, table);
    TokensOfCompose(DATABASE, o, projectID, table);
  }
}
