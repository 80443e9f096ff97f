/** The three records the client sends as JSON (`Contact`,
    `TransactionMember`, `Transaction` in godocage.go), their `omitempty`
    encodings, and a reference decoding that reads an encoding back into
    zero-valued records. */
module Records {
  import opened Wrappers
  import opened Json

  datatype Contact = Contact(
    email: string, firstName: string, lastName: string,
    address1: string, address2: string, city: string, state: string,
    zipCode: string, country: string, notes: string,
    phone: string, mobile: string, company: string,
    gender: string, civility: string,
    profilePictureSmall: string, profilePictureMedium: string, profilePictureLarge: string)

  /** JSON names of the contact's fields, in declaration order. */
  const ContactKeys: seq<string> := [
    "Email", "FirstName", "LastName", "Address1", "Address2", "City", "State",
    "ZipCode", "Country", "Notes", "Phone", "Mobile", "Company", "Gender",
    "Civility", "ProfilePictureSmall", "ProfilePictureMedium", "ProfilePictureLarge"]

  /** The contact's field values, in the order of `ContactKeys`. */
  function ContactValues(c: Contact): (vs: seq<string>)
    ensures |vs| == |ContactKeys|
  {
    [c.email, c.firstName, c.lastName, c.address1, c.address2, c.city, c.state,
     c.zipCode, c.country, c.notes, c.phone, c.mobile, c.company, c.gender,
     c.civility, c.profilePictureSmall, c.profilePictureMedium, c.profilePictureLarge]
  }

  function ContactFromValues(vs: seq<string>): Contact
    requires |vs| == |ContactKeys|
  {
    Contact(vs[0], vs[1], vs[2], vs[3], vs[4], vs[5], vs[6], vs[7], vs[8],
            vs[9], vs[10], vs[11], vs[12], vs[13], vs[14], vs[15], vs[16], vs[17])
  }

  /** Every field of the contact as a JSON member, before omission. */
  function ContactEntries(c: Contact): seq<Entry>
  {
    var vs := ContactValues(c);
    seq(|ContactKeys|, i requires 0 <= i < |ContactKeys| => Entry(ContactKeys[i], JString(vs[i])))
  }

  /** The contact as `json.Encoder` writes it: distinct contact keys, none
      with an empty value. */
  function EncodeContact(c: Contact): (r: seq<Entry>)
    ensures DistinctKeys(r)
    ensures forall e :: e in r ==> e.key in ContactKeys && !IsEmptyValue(e.value)
  {
    var es := ContactEntries(c);
    ContactKeysDistinct(c);
    OmitEmptyDistinct(es);
    OmitEmptyMembers(es);
    assert forall e :: e in es ==> e.key in ContactKeys by {
      forall e | e in es ensures e.key in ContactKeys {
        var j :| 0 <= j < |es| && es[j] == e;
        assert e.key == ContactKeys[j];
      }
    }
    OmitEmpty(es)
  }

  function DecodeContact(es: seq<Entry>): Contact
  {
    ContactFromValues(seq(|ContactKeys|, i requires 0 <= i < |ContactKeys| => StringField(es, ContactKeys[i])))
  }

  /** The position of a key in `ContactKeys`, or -1. */
  function ContactKeyIndex(k: string): int
  {
    if k == "Email" then 0 else
    if k == "FirstName" then 1 else
    if k == "LastName" then 2 else
    if k == "Address1" then 3 else
    if k == "Address2" then 4 else
    if k == "City" then 5 else
    if k == "State" then 6 else
    if k == "ZipCode" then 7 else
    if k == "Country" then 8 else
    if k == "Notes" then 9 else
    if k == "Phone" then 10 else
    if k == "Mobile" then 11 else
    if k == "Company" then 12 else
    if k == "Gender" then 13 else
    if k == "Civility" then 14 else
    if k == "ProfilePictureSmall" then 15 else
    if k == "ProfilePictureMedium" then 16 else
    if k == "ProfilePictureLarge" then 17 else -1
  }

  lemma ContactKeysAreDistinct()
    ensures Distinct(ContactKeys)
  {
    assert forall i :: 0 <= i < |ContactKeys| ==> ContactKeyIndex(ContactKeys[i]) == i;
  }

  lemma ContactKeysDistinct(c: Contact)
    ensures DistinctKeys(ContactEntries(c))
  {
    ContactKeysAreDistinct();
  }

  /** A contact field's key is written exactly when the field is not "". */
  lemma ContactEmitsNonEmpty(c: Contact)
    ensures forall i :: 0 <= i < |ContactKeys| ==>
      (ContactKeys[i] in KeysOf(EncodeContact(c)) <==> ContactValues(c)[i] != "")
  {
    ContactKeysDistinct(c);
    forall i | 0 <= i < |ContactKeys|
      ensures ContactKeys[i] in KeysOf(EncodeContact(c)) <==> ContactValues(c)[i] != ""
    {
      KeyEmittedIff(ContactEntries(c), i);
    }
  }

  /** Round trip: decoding the encoding of any contact gives the contact back,
      so omitting empty fields loses nothing. */
  lemma ContactRoundTrip(c: Contact)
    ensures DecodeContact(EncodeContact(c)) == c
  {
    var es := ContactEntries(c);
    ContactKeysDistinct(c);
    var decoded := seq(|ContactKeys|, i requires 0 <= i < |ContactKeys| => StringField(EncodeContact(c), ContactKeys[i]));
    forall i | 0 <= i < |ContactKeys|
      ensures decoded[i] == ContactValues(c)[i]
    {
      LookupOmitEmpty(es, i);
    }
    assert decoded == ContactValues(c);
  }

  datatype TransactionMember = TransactionMember(
    transactionId: string, contactId: string,
    notifyInvitation: bool, notifySignature: bool, notifyRefusal: bool, notifyCompletion: bool,
    memberRole: int,  // 0 signer, 1 observer
    signMode: int)    // 0 SMS, 1 email

  /** A member with every field at its zero value. */
  const ZeroMember: TransactionMember := TransactionMember("", "", false, false, false, false, 0, 0)

  /** JSON names of the member's fields, in declaration order. */
  const MemberKeys: seq<string> := [
    "TransactionId", "ContactId", "NotifyInvitation", "NotifySignature",
    "NotifyRefusal", "NotifyCompletion", "MemberRole", "SignMode"]

  function MemberValues(m: TransactionMember): (vs: seq<JsonValue>)
    ensures |vs| == |MemberKeys|
  {
    [JString(m.transactionId), JString(m.contactId),
     JBool(m.notifyInvitation), JBool(m.notifySignature),
     JBool(m.notifyRefusal), JBool(m.notifyCompletion),
     JNumber(m.memberRole), JNumber(m.signMode)]
  }

  function MemberEntries(m: TransactionMember): seq<Entry>
  {
    Zip(MemberKeys, MemberValues(m))
  }

  /** The position of a key in `MemberKeys`, or -1. */
  function MemberKeyIndex(k: string): int
  {
    if k == "TransactionId" then 0 else
    if k == "ContactId" then 1 else
    if k == "NotifyInvitation" then 2 else
    if k == "NotifySignature" then 3 else
    if k == "NotifyRefusal" then 4 else
    if k == "NotifyCompletion" then 5 else
    if k == "MemberRole" then 6 else
    if k == "SignMode" then 7 else -1
  }

  lemma MemberKeysAreDistinct()
    ensures Distinct(MemberKeys)
  {
    assert forall i :: 0 <= i < |MemberKeys| ==> MemberKeyIndex(MemberKeys[i]) == i;
  }

  lemma MemberKeysDistinct(m: TransactionMember)
    ensures DistinctKeys(MemberEntries(m))
  {
    MemberKeysAreDistinct();
    ZipDistinct(MemberKeys, MemberValues(m));
  }

  /** The member as `json.Encoder` writes it: distinct member keys, none
      with a zero value. */
  function EncodeMember(m: TransactionMember): (r: seq<Entry>)
    ensures DistinctKeys(r)
    ensures forall e :: e in r ==> e.key in MemberKeys && !IsEmptyValue(e.value)
  {
    MemberKeysAreDistinct();
    OmitEmptyOfZip(MemberKeys, MemberValues(m));
    OmitEmpty(MemberEntries(m))
  }

  function DecodeMember(es: seq<Entry>): TransactionMember
  {
    TransactionMember(
      StringField(es, "TransactionId"), StringField(es, "ContactId"),
      BoolField(es, "NotifyInvitation"), BoolField(es, "NotifySignature"),
      BoolField(es, "NotifyRefusal"), BoolField(es, "NotifyCompletion"),
      NumberField(es, "MemberRole"), NumberField(es, "SignMode"))
  }

  /** A member field's key is written exactly when the field is not its zero value. */
  lemma MemberEmitsNonZero(m: TransactionMember)
    ensures var keys := KeysOf(EncodeMember(m));
      && ("TransactionId" in keys <==> m.transactionId != "")
      && ("ContactId" in keys <==> m.contactId != "")
      && ("NotifyInvitation" in keys <==> m.notifyInvitation)
      && ("NotifySignature" in keys <==> m.notifySignature)
      && ("NotifyRefusal" in keys <==> m.notifyRefusal)
      && ("NotifyCompletion" in keys <==> m.notifyCompletion)
      && ("MemberRole" in keys <==> m.memberRole != 0)
      && ("SignMode" in keys <==> m.signMode != 0)
  {
    var es := MemberEntries(m);
    MemberKeysDistinct(m);
    KeyEmittedIff(es, 0); KeyEmittedIff(es, 1); KeyEmittedIff(es, 2); KeyEmittedIff(es, 3);
    KeyEmittedIff(es, 4); KeyEmittedIff(es, 5); KeyEmittedIff(es, 6); KeyEmittedIff(es, 7);
  }

  /** Round trip: decoding a member's encoding gives the member back. */
  lemma MemberRoundTrip(m: TransactionMember)
    ensures DecodeMember(EncodeMember(m)) == m
  {
    var es := MemberEntries(m);
    var enc := EncodeMember(m);
    assert StringField(enc, "TransactionId") == m.transactionId by {
      MemberKeysDistinct(m);
      StringFieldRoundTrip(es, 0, m.transactionId);
    }
    assert StringField(enc, "ContactId") == m.contactId by {
      MemberKeysDistinct(m);
      StringFieldRoundTrip(es, 1, m.contactId);
    }
    assert BoolField(enc, "NotifyInvitation") == m.notifyInvitation by {
      MemberKeysDistinct(m);
      BoolFieldRoundTrip(es, 2, m.notifyInvitation);
    }
    assert BoolField(enc, "NotifySignature") == m.notifySignature by {
      MemberKeysDistinct(m);
      BoolFieldRoundTrip(es, 3, m.notifySignature);
    }
    assert BoolField(enc, "NotifyRefusal") == m.notifyRefusal by {
      MemberKeysDistinct(m);
      BoolFieldRoundTrip(es, 4, m.notifyRefusal);
    }
    assert BoolField(enc, "NotifyCompletion") == m.notifyCompletion by {
      MemberKeysDistinct(m);
      BoolFieldRoundTrip(es, 5, m.notifyCompletion);
    }
    assert NumberField(enc, "MemberRole") == m.memberRole by {
      MemberKeysDistinct(m);
      NumberFieldRoundTrip(es, 6, m.memberRole);
    }
    assert NumberField(enc, "SignMode") == m.signMode by {
      MemberKeysDistinct(m);
      NumberFieldRoundTrip(es, 7, m.signMode);
    }
  }

  /** The notification toggles as the service reads them: an absent toggle
      takes the service's default, which is on. */
  function ServiceNotify(es: seq<Entry>, key: string): bool
  {
    match Lookup(es, key)
    case Some(JBool(b)) => b
    case _ => true
  }

  /** A toggle set to false is omitted from the request, so the service always
      sees every notification switched on, whatever the member says. */
  lemma NotificationsAlwaysOnAtService(m: TransactionMember)
    ensures ServiceNotify(EncodeMember(m), "NotifyInvitation")
    ensures ServiceNotify(EncodeMember(m), "NotifySignature")
    ensures ServiceNotify(EncodeMember(m), "NotifyRefusal")
    ensures ServiceNotify(EncodeMember(m), "NotifyCompletion")
  {
    var es := MemberEntries(m);
    MemberKeysDistinct(m);
    LookupOmitEmpty(es, 2); LookupOmitEmpty(es, 3); LookupOmitEmpty(es, 4); LookupOmitEmpty(es, 5);
  }

  datatype Transaction = Transaction(
    name: string,
    endDate: string,          // "2020-05-30T00:00:00"
    reminder: int,            // days between reminders
    maximumReminders: int,
    invitationEmailSubject: string, invitationEmailBody: string,
    reminderEmailSubject: string, reminderEmailBody: string,
    signatureEmailSubject: string, signatureEmailBody: string,
    completionEmailSubject: string, completionEmailBody: string,
    refusalEmailSubject: string, refusalEmailBody: string,
    webhook: string,
    isTest: bool,
    members: seq<TransactionMember>)

  /** A transaction with every field at its zero value. */
  const ZeroTransaction: Transaction :=
    Transaction("", "", 0, 0, "", "", "", "", "", "", "", "", "", "", "", false, [])

  function EncodeMembers(ms: seq<TransactionMember>): seq<JsonValue>
  {
    seq(|ms|, i requires 0 <= i < |ms| => JObject(EncodeMember(ms[i])))
  }

  function DecodeMembers(items: seq<JsonValue>): seq<TransactionMember>
  {
    seq(|items|, i requires 0 <= i < |items| =>
      match items[i]
      case JObject(es) => DecodeMember(es)
      case _ => ZeroMember)
  }

  /** JSON names of the transaction's fields, in declaration order. */
  const TransactionKeys: seq<string> := [
    "Name", "EndDate", "Reminder", "MaximumReminders",
    "InvitationEmailSubject", "InvitationEmailBody",
    "ReminderEmailSubject", "ReminderEmailBody",
    "SignatureEmailSubject", "SignatureEmailBody",
    "CompletionEmailSubject", "CompletionEmailBody",
    "RefusalEmailSubject", "RefusalEmailBody",
    "Webhook", "IsTest", "TransactionMembers"]

  function TransactionValues(t: Transaction): (vs: seq<JsonValue>)
    ensures |vs| == |TransactionKeys|
  {
    [JString(t.name), JString(t.endDate), JNumber(t.reminder), JNumber(t.maximumReminders),
     JString(t.invitationEmailSubject), JString(t.invitationEmailBody),
     JString(t.reminderEmailSubject), JString(t.reminderEmailBody),
     JString(t.signatureEmailSubject), JString(t.signatureEmailBody),
     JString(t.completionEmailSubject), JString(t.completionEmailBody),
     JString(t.refusalEmailSubject), JString(t.refusalEmailBody),
     JString(t.webhook), JBool(t.isTest), JArray(EncodeMembers(t.members))]
  }

  function TransactionEntries(t: Transaction): seq<Entry>
  {
    Zip(TransactionKeys, TransactionValues(t))
  }

  /** The position of a key in `TransactionKeys`, or -1. */
  function TransactionKeyIndex(k: string): int
  {
    if k == "Name" then 0 else
    if k == "EndDate" then 1 else
    if k == "Reminder" then 2 else
    if k == "MaximumReminders" then 3 else
    if k == "InvitationEmailSubject" then 4 else
    if k == "InvitationEmailBody" then 5 else
    if k == "ReminderEmailSubject" then 6 else
    if k == "ReminderEmailBody" then 7 else
    if k == "SignatureEmailSubject" then 8 else
    if k == "SignatureEmailBody" then 9 else
    if k == "CompletionEmailSubject" then 10 else
    if k == "CompletionEmailBody" then 11 else
    if k == "RefusalEmailSubject" then 12 else
    if k == "RefusalEmailBody" then 13 else
    if k == "Webhook" then 14 else
    if k == "IsTest" then 15 else
    if k == "TransactionMembers" then 16 else -1
  }

  lemma TransactionKeysAreDistinct()
    ensures Distinct(TransactionKeys)
  {
    assert forall i :: 0 <= i < |TransactionKeys| ==> TransactionKeyIndex(TransactionKeys[i]) == i;
  }

  lemma TransactionKeysDistinct(t: Transaction)
    ensures DistinctKeys(TransactionEntries(t))
  {
    TransactionKeysAreDistinct();
    ZipDistinct(TransactionKeys, TransactionValues(t));
  }

  /** The transaction as `json.Encoder` writes it: distinct transaction keys,
      none with a zero value (an empty member list included). */
  function EncodeTransaction(t: Transaction): (r: seq<Entry>)
    ensures DistinctKeys(r)
    ensures forall e :: e in r ==> e.key in TransactionKeys && !IsEmptyValue(e.value)
  {
    TransactionKeysAreDistinct();
    OmitEmptyOfZip(TransactionKeys, TransactionValues(t));
    OmitEmpty(TransactionEntries(t))
  }

  function DecodeTransaction(es: seq<Entry>): Transaction
  {
    Transaction(
      StringField(es, "Name"), StringField(es, "EndDate"),
      NumberField(es, "Reminder"), NumberField(es, "MaximumReminders"),
      StringField(es, "InvitationEmailSubject"), StringField(es, "InvitationEmailBody"),
      StringField(es, "ReminderEmailSubject"), StringField(es, "ReminderEmailBody"),
      StringField(es, "SignatureEmailSubject"), StringField(es, "SignatureEmailBody"),
      StringField(es, "CompletionEmailSubject"), StringField(es, "CompletionEmailBody"),
      StringField(es, "RefusalEmailSubject"), StringField(es, "RefusalEmailBody"),
      StringField(es, "Webhook"), BoolField(es, "IsTest"),
      MembersField(es))
  }

  /** Reading the member list into a zero transaction: absent leaves the empty list. */
  function MembersField(es: seq<Entry>): seq<TransactionMember>
  {
    match Lookup(es, "TransactionMembers")
    case Some(JArray(items)) => DecodeMembers(items)
    case _ => []
  }

  /** Whether the transaction field at position `i` of `TransactionKeys` is written. */
  lemma TransactionKeyEmitted(t: Transaction, i: nat)
    requires i < |TransactionKeys|
    ensures TransactionKeys[i] in KeysOf(EncodeTransaction(t))
        <==> !IsEmptyValue(TransactionValues(t)[i])
  {
    TransactionKeysDistinct(t);
    KeyEmittedIff(TransactionEntries(t), i);
  }

  /** Each transaction field's key is written exactly when the field is not its
      zero value; the member list exactly when it is non-empty. */
  lemma TransactionEmitsNonZero(t: Transaction)
    ensures var keys := KeysOf(EncodeTransaction(t));
      && ("Name" in keys <==> t.name != "")
      && ("EndDate" in keys <==> t.endDate != "")
      && ("Reminder" in keys <==> t.reminder != 0)
      && ("MaximumReminders" in keys <==> t.maximumReminders != 0)
      && ("InvitationEmailSubject" in keys <==> t.invitationEmailSubject != "")
      && ("InvitationEmailBody" in keys <==> t.invitationEmailBody != "")
      && ("ReminderEmailSubject" in keys <==> t.reminderEmailSubject != "")
      && ("ReminderEmailBody" in keys <==> t.reminderEmailBody != "")
      && ("SignatureEmailSubject" in keys <==> t.signatureEmailSubject != "")
      && ("SignatureEmailBody" in keys <==> t.signatureEmailBody != "")
      && ("CompletionEmailSubject" in keys <==> t.completionEmailSubject != "")
      && ("CompletionEmailBody" in keys <==> t.completionEmailBody != "")
      && ("RefusalEmailSubject" in keys <==> t.refusalEmailSubject != "")
      && ("RefusalEmailBody" in keys <==> t.refusalEmailBody != "")
      && ("Webhook" in keys <==> t.webhook != "")
      && ("IsTest" in keys <==> t.isTest)
      && ("TransactionMembers" in keys <==> |t.members| > 0)
  {
    TransactionKeyEmitted(t, 0); TransactionKeyEmitted(t, 1); TransactionKeyEmitted(t, 2);
    TransactionKeyEmitted(t, 3); TransactionKeyEmitted(t, 4); TransactionKeyEmitted(t, 5);
    TransactionKeyEmitted(t, 6); TransactionKeyEmitted(t, 7); TransactionKeyEmitted(t, 8);
    TransactionKeyEmitted(t, 9); TransactionKeyEmitted(t, 10); TransactionKeyEmitted(t, 11);
    TransactionKeyEmitted(t, 12); TransactionKeyEmitted(t, 13); TransactionKeyEmitted(t, 14);
    TransactionKeyEmitted(t, 15); TransactionKeyEmitted(t, 16);
  }

  /** An all-default transaction is written as an object with no keys. */
  lemma ZeroTransactionEncodesEmpty()
    ensures EncodeTransaction(ZeroTransaction) == []
  {
    var es := TransactionEntries(ZeroTransaction);
    assert EncodeMembers([]) == [];
    forall i | 0 <= i < |es|
      ensures IsEmptyValue(es[i].value)
    {
      assert es[i].value == TransactionValues(ZeroTransaction)[i];
    }
    OmitAllEmpty(es);
  }

  /** Decoding the encoded member list gives the members back. */
  lemma MembersRoundTrip(ms: seq<TransactionMember>)
    ensures DecodeMembers(EncodeMembers(ms)) == ms
  {
    forall i | 0 <= i < |ms|
      ensures DecodeMembers(EncodeMembers(ms))[i] == ms[i]
    {
      MemberRoundTrip(ms[i]);
    }
  }

  /** The field at position `i` decodes from the encoding to its own value. */
  lemma TransactionFieldDecodes(t: Transaction, i: nat)
    requires i < |TransactionKeys|
    ensures var enc := EncodeTransaction(t);
            var k := TransactionKeys[i];
            match TransactionValues(t)[i]
            case JString(s) => StringField(enc, k) == s
            case JNumber(n) => NumberField(enc, k) == n
            case JBool(b) => BoolField(enc, k) == b
            case JArray(items) => Lookup(enc, k) == if |items| == 0 then None else Some(JArray(items))
            case JObject(_) => true
  {
    var es := TransactionEntries(t);
    TransactionKeysDistinct(t);
    LookupOmitEmpty(es, i);
  }

  /** Decoding reads each field by its key and nothing else. */
  lemma DecodeTransactionFromFields(enc: seq<Entry>, t: Transaction)
    requires StringField(enc, "Name") == t.name
    requires StringField(enc, "EndDate") == t.endDate
    requires NumberField(enc, "Reminder") == t.reminder
    requires NumberField(enc, "MaximumReminders") == t.maximumReminders
    requires StringField(enc, "InvitationEmailSubject") == t.invitationEmailSubject
    requires StringField(enc, "InvitationEmailBody") == t.invitationEmailBody
    requires StringField(enc, "ReminderEmailSubject") == t.reminderEmailSubject
    requires StringField(enc, "ReminderEmailBody") == t.reminderEmailBody
    requires StringField(enc, "SignatureEmailSubject") == t.signatureEmailSubject
    requires StringField(enc, "SignatureEmailBody") == t.signatureEmailBody
    requires StringField(enc, "CompletionEmailSubject") == t.completionEmailSubject
    requires StringField(enc, "CompletionEmailBody") == t.completionEmailBody
    requires StringField(enc, "RefusalEmailSubject") == t.refusalEmailSubject
    requires StringField(enc, "RefusalEmailBody") == t.refusalEmailBody
    requires StringField(enc, "Webhook") == t.webhook
    requires BoolField(enc, "IsTest") == t.isTest
    requires MembersField(enc) == t.members
    ensures DecodeTransaction(enc) == t
  {
  }

  // The round trip below, four fields at a time.

  lemma TransactionFieldsRoundTrip1(t: Transaction)
    ensures StringField(EncodeTransaction(t), "Name") == t.name
    ensures StringField(EncodeTransaction(t), "EndDate") == t.endDate
    ensures NumberField(EncodeTransaction(t), "Reminder") == t.reminder
    ensures NumberField(EncodeTransaction(t), "MaximumReminders") == t.maximumReminders
  {
    TransactionFieldDecodes(t, 0);
    TransactionFieldDecodes(t, 1);
    TransactionFieldDecodes(t, 2);
    TransactionFieldDecodes(t, 3);
  }

  lemma TransactionFieldsRoundTrip2(t: Transaction)
    ensures StringField(EncodeTransaction(t), "InvitationEmailSubject") == t.invitationEmailSubject
    ensures StringField(EncodeTransaction(t), "InvitationEmailBody") == t.invitationEmailBody
    ensures StringField(EncodeTransaction(t), "ReminderEmailSubject") == t.reminderEmailSubject
    ensures StringField(EncodeTransaction(t), "ReminderEmailBody") == t.reminderEmailBody
  {
    TransactionFieldDecodes(t, 4);
    TransactionFieldDecodes(t, 5);
    TransactionFieldDecodes(t, 6);
    TransactionFieldDecodes(t, 7);
  }

  lemma TransactionFieldsRoundTrip3(t: Transaction)
    ensures StringField(EncodeTransaction(t), "SignatureEmailSubject") == t.signatureEmailSubject
    ensures StringField(EncodeTransaction(t), "SignatureEmailBody") == t.signatureEmailBody
    ensures StringField(EncodeTransaction(t), "CompletionEmailSubject") == t.completionEmailSubject
    ensures StringField(EncodeTransaction(t), "CompletionEmailBody") == t.completionEmailBody
  {
    TransactionFieldDecodes(t, 8);
    TransactionFieldDecodes(t, 9);
    TransactionFieldDecodes(t, 10);
    TransactionFieldDecodes(t, 11);
  }

  lemma TransactionFieldsRoundTrip4(t: Transaction)
    ensures StringField(EncodeTransaction(t), "RefusalEmailSubject") == t.refusalEmailSubject
    ensures StringField(EncodeTransaction(t), "RefusalEmailBody") == t.refusalEmailBody
    ensures StringField(EncodeTransaction(t), "Webhook") == t.webhook
    ensures BoolField(EncodeTransaction(t), "IsTest") == t.isTest
    ensures MembersField(EncodeTransaction(t)) == t.members
  {
    TransactionFieldDecodes(t, 12);
    TransactionFieldDecodes(t, 13);
    TransactionFieldDecodes(t, 14);
    TransactionFieldDecodes(t, 15);
    TransactionFieldDecodes(t, 16);
    MembersRoundTrip(t.members);
  }

  /** Round trip: decoding a transaction's encoding, members included, gives it back. */
  lemma TransactionRoundTrip(t: Transaction)
    ensures DecodeTransaction(EncodeTransaction(t)) == t
  {
    TransactionFieldsRoundTrip1(t);
    TransactionFieldsRoundTrip2(t);
    TransactionFieldsRoundTrip3(t);
    TransactionFieldsRoundTrip4(t);
    DecodeTransactionFromFields(EncodeTransaction(t), t);
  }
}
