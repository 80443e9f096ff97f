/** The payloads of the integration scenario in godocage_test.go: a contact
    with four fields, a test transaction with a name, and a member signing by
    email. */
module Scenario {
  import opened Json
  import opened Records

  const ScenarioContact: Contact :=
    Contact("moi@free.fr", "John", "Doe", "", "", "", "", "", "France",
            "", "", "", "", "", "", "", "", "")

  const ScenarioTransaction: Transaction :=
    ZeroTransaction.(name := "Test Tx", isTest := true)

  /** Only the four fields that were set are written, in declaration order. */
  lemma ScenarioContactKeys()
    ensures KeysOf(EncodeContact(ScenarioContact)) == ["Email", "FirstName", "LastName", "Country"]
  {
    var es := ContactEntries(ScenarioContact);
    assert forall n :: 0 <= n < 3 ==> !IsEmptyValue(es[n].value);
    assert forall n :: 3 <= n < 8 ==> IsEmptyValue(es[n].value);
    assert !IsEmptyValue(es[8].value);
    assert forall n :: 9 <= n < 18 ==> IsEmptyValue(es[n].value);
    OmitRuns(es, 3, 8, 9);
    assert KeysOf(es[..3] + es[8..9]) == ["Email", "FirstName", "LastName", "Country"];
  }

  /** Only the name and the test flag are written. */
  lemma ScenarioTransactionKeys()
    ensures KeysOf(EncodeTransaction(ScenarioTransaction)) == ["Name", "IsTest"]
  {
    var es := TransactionEntries(ScenarioTransaction);
    assert !IsEmptyValue(es[0].value);
    assert forall n :: 1 <= n < 15 ==> IsEmptyValue(es[n].value);
    assert !IsEmptyValue(es[15].value);
    assert IsEmptyValue(es[16].value);
    OmitRuns(es, 1, 15, 16);
    assert KeysOf(es[..1] + es[15..16]) == ["Name", "IsTest"];
  }

  /** With the identifiers the service returned (never empty), the member is
      written with its two identifiers and the email sign mode, and nothing
      else: its notification toggles are left to the service. */
  lemma ScenarioMemberKeys(txid: string, contactId: string)
    requires txid != "" && contactId != ""
    ensures var m := ZeroMember.(transactionId := txid, contactId := contactId, signMode := 1);
            KeysOf(EncodeMember(m)) == ["TransactionId", "ContactId", "SignMode"]
  {
    var m := ZeroMember.(transactionId := txid, contactId := contactId, signMode := 1);
    OmitRuns(MemberEntries(m), 2, 7, 8);
  }
}
