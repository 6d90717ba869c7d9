/**
 `get_groups` and `get_contacts_and_contact_groups`: flattening groups and
 contacts into rows for the `groups`, `contacts_raw` and `group_contacts`
 tables. The source's append loops are written as folds over an
 accumulator.
 */
module Contacts {
  import opened Wrappers
  import opened Values
  import opened Settings
  import opened Records
  import opened Seqs

  // ---------------------------------------------------------------------------
  // Groups
  // ---------------------------------------------------------------------------

  function GroupRow(g: Group): Row {
    map["uuid" := Str(g.uuid), "name" := Str(g.name)]
  }

  /** The loop that appends one row per group to `acc`. */
  function CollectGroups(acc: seq<Row>, groups: seq<Group>): (r: seq<Row>)
    ensures |r| == |acc| + |groups|
    ensures r[..|acc|] == acc
    ensures forall i :: |acc| <= i < |r| ==> r[i] == GroupRow(groups[i - |acc|])
    decreases |groups|
  {
    if |groups| == 0 then acc
    else CollectGroups(acc + [GroupRow(groups[0])], groups[1..])
  }

  /** One `{uuid, name}` row per group, in the order the groups were fetched. */
  function GetGroups(groups: seq<Group>): (r: seq<Row>)
    ensures |r| == |groups|
    ensures forall i :: 0 <= i < |groups| ==>
              "uuid" in r[i] && r[i]["uuid"] == Str(groups[i].uuid) &&
              "name" in r[i] && r[i]["name"] == Str(groups[i].name)
  {
    CollectGroups([], groups)
  }

  /** A group row has exactly the columns of the group schema, each holding a string. */
  lemma GroupRowMatchesSchema(g: Group)
    ensures GroupRow(g).Keys == Names(GROUP_FIELDS)
    ensures FitsSchema(GroupRow(g), GROUP_FIELDS)
  {
    GroupFieldsNames();
    assert Lookup(GROUP_FIELDS, "uuid") == Some(STRING);
    assert Lookup(GROUP_FIELDS, "name") == Some(STRING);
  }

  // ---------------------------------------------------------------------------
  // Contact rows
  // ---------------------------------------------------------------------------

  /** The record every contact starts as, before its custom fields are copied in. */
  function BaseRecord(c: Contact): Row {
    map["uuid" := Str(c.uuid), "modified_on" := Str(c.modifiedOn.iso)]
  }

  /**
   The net rule for a custom field of column type `t`: an empty string in a
   TIMESTAMP column becomes None, anything else is kept as it came.
   */
  function Coerce(t: ColumnType, v: Scalar): Value {
    if t == TIMESTAMP && v == Str("") then Null else v
  }

  /**
   The body of the custom-field loop, as written: a STRING column is first
   given `str(value)`, and then the second `if`/`else` writes the field again.
   */
  function ApplyField(record: Row, field: string, value: Scalar): Row {
    match Lookup(CONTACT_FIELDS, field)
    case None => record
    case Some(t) =>
      var written := if t == STRING then record[field := Str(PyStr(value))] else record;
      if t == TIMESTAMP && value == Str("") then written[field := Null]
      else written[field := value]
  }

  /**
   The net effect of one custom field: a field the contact schema does not
   name changes nothing, and a named one is set by the net rule, so the
   string form written for a STRING column never survives.
   */
  lemma ApplyFieldNetRule(record: Row, field: string, value: Scalar)
    ensures field !in Names(CONTACT_FIELDS) ==> ApplyField(record, field, value) == record
    ensures field in Names(CONTACT_FIELDS) ==>
              ApplyField(record, field, value) ==
                record[field := Coerce(Lookup(CONTACT_FIELDS, field).value, value)]
  {
  }

  /** The value the field dictionary holds for `name`: that of the last pair with this name. */
  function LastValue(fields: seq<(string, Scalar)>, name: string): (r: Option<Scalar>)
    ensures r.None? <==> forall i :: 0 <= i < |fields| ==> fields[i].0 != name
    ensures r.Some? ==> exists i :: 0 <= i < |fields| && fields[i] == (name, r.value) &&
                                    forall j :: i < j < |fields| ==> fields[j].0 != name
    decreases |fields|
  {
    if |fields| == 0 then None
    else
      match LastValue(fields[1..], name)
      case Some(v) => Some(v)
      case None => if fields[0].0 == name then Some(fields[0].1) else None
  }

  /** What the contact row ends up holding for `name` from the custom fields, if anything. */
  function KeptValue(fields: seq<(string, Scalar)>, name: string): Option<Value> {
    match Lookup(CONTACT_FIELDS, name)
    case None => None
    case Some(t) =>
      match LastValue(fields, name)
      case None => None
      case Some(v) => Some(Coerce(t, v))
  }

  /** The custom-field loop over a whole dictionary. */
  function ApplyFields(record: Row, fields: seq<(string, Scalar)>): Row
    decreases |fields|
  {
    if |fields| == 0 then record
    else ApplyFields(ApplyField(record, fields[0].0, fields[0].1), fields[1..])
  }

  /**
   After the custom-field loop, a field the contact schema names holds its
   coerced last value, overriding whatever `record` held; every other key of
   `record` is left alone, and no other key is added.
   */
  lemma {:induction false} ApplyFieldsEffect(record: Row, fields: seq<(string, Scalar)>)
    ensures forall k :: k in ApplyFields(record, fields) <==> k in record || KeptValue(fields, k).Some?
    ensures forall k :: k in ApplyFields(record, fields) ==>
              ApplyFields(record, fields)[k] ==
                if KeptValue(fields, k).Some? then KeptValue(fields, k).value else record[k]
    decreases |fields|
  {
    if |fields| > 0 {
      var next := ApplyField(record, fields[0].0, fields[0].1);
      var r := ApplyFields(record, fields);
      assert r == ApplyFields(next, fields[1..]);
      ApplyFieldNetRule(record, fields[0].0, fields[0].1);
      ApplyFieldsEffect(next, fields[1..]);
      forall k
        ensures k in r <==> k in record || KeptValue(fields, k).Some?
        ensures k in r ==> r[k] == if KeptValue(fields, k).Some? then KeptValue(fields, k).value else record[k]
      {
        KeptValueStep(fields, k);
      }
    }
  }

  /** The last value of a field comes from the later fields when they set it, and from the first field otherwise. */
  lemma KeptValueStep(fields: seq<(string, Scalar)>, k: string)
    requires |fields| > 0
    ensures KeptValue(fields, k) ==
              if KeptValue(fields[1..], k).Some? then KeptValue(fields[1..], k)
              else if fields[0].0 == k && k in Names(CONTACT_FIELDS) then Some(Coerce(Lookup(CONTACT_FIELDS, k).value, fields[0].1))
              else None
  {
  }

  /** The `contacts_raw` row of one contact (the body of the contact loop). */
  function ContactRecord(c: Contact): Row {
    ApplyFields(BaseRecord(c), c.fields)
  }

  /**
   A contact row holds `uuid`, `modified_on` and every custom field the
   contact schema names, and nothing else; so its keys are columns of the
   contact schema, and a field the schema does not name never appears.
   */
  lemma ContactRowKeys(c: Contact)
    ensures forall k :: k in ContactRecord(c) <==>
              k == "uuid" || k == "modified_on" ||
              (k in Names(CONTACT_FIELDS) && LastValue(c.fields, k).Some?)
    ensures ContactRecord(c).Keys <= Names(CONTACT_FIELDS)
  {
    var r := ContactRecord(c);
    ApplyFieldsEffect(BaseRecord(c), c.fields);
    forall k
      ensures k in r <==> k == "uuid" || k == "modified_on" || (k in Names(CONTACT_FIELDS) && LastValue(c.fields, k).Some?)
    {
      KeptValueSome(c.fields, k);
    }
    ContactFieldsNames();
  }

  /** A custom field is kept exactly when the contact schema names it and the contact has it. */
  lemma KeptValueSome(fields: seq<(string, Scalar)>, k: string)
    ensures KeptValue(fields, k).Some? <==> k in Names(CONTACT_FIELDS) && LastValue(fields, k).Some?
  {
  }

  /**
   A kept custom field holds its coerced value, overriding the base value;
   `uuid` and `modified_on` keep the contact's own values unless a custom
   field of that name overrides them.
   */
  lemma ContactRowValues(c: Contact)
    ensures forall k :: k in ContactRecord(c) && KeptValue(c.fields, k).Some? ==>
              ContactRecord(c)[k] == KeptValue(c.fields, k).value
    ensures "uuid" in ContactRecord(c) && "modified_on" in ContactRecord(c)
    ensures LastValue(c.fields, "uuid").None? ==> ContactRecord(c)["uuid"] == Str(c.uuid)
    ensures LastValue(c.fields, "modified_on").None? ==>
              ContactRecord(c)["modified_on"] == Str(c.modifiedOn.iso)
  {
    ContactFieldsNames();
    ApplyFieldsEffect(BaseRecord(c), c.fields);
  }

  // ---------------------------------------------------------------------------
  // Group memberships
  // ---------------------------------------------------------------------------

  function PairRow(contactUuid: string, groupUuid: string): Row {
    map["contact_uuid" := Str(contactUuid), "group_uuid" := Str(groupUuid)]
  }

  /** The loop that appends one membership row per group of one contact. */
  function CollectPairs(acc: seq<Row>, contactUuid: string, groups: seq<ObjectRef>): (r: seq<Row>)
    ensures |r| == |acc| + |groups|
    ensures r[..|acc|] == acc
    ensures forall j :: |acc| <= j < |r| ==> r[j] == PairRow(contactUuid, groups[j - |acc|].uuid)
    decreases |groups|
  {
    if |groups| == 0 then acc
    else CollectPairs(acc + [PairRow(contactUuid, groups[0].uuid)], contactUuid, groups[1..])
  }

  /** The membership rows of one contact, one per group, in the contact's group order. */
  function GroupPairs(c: Contact): (r: seq<Row>)
    ensures |r| == |c.groups|
    ensures forall j :: 0 <= j < |r| ==> r[j] == PairRow(c.uuid, c.groups[j].uuid)
  {
    CollectPairs([], c.uuid, c.groups)
  }

  /** The membership rows grouped by contact. */
  function Memberships(cs: seq<Contact>): seq<seq<Row>> {
    seq(|cs|, i requires 0 <= i < |cs| => GroupPairs(cs[i]))
  }

  /** The number of group memberships over all contacts. */
  function GroupCount(cs: seq<Contact>): nat
    decreases |cs|
  {
    if |cs| == 0 then 0 else |cs[0].groups| + GroupCount(cs[1..])
  }

  // ---------------------------------------------------------------------------
  // get_contacts_and_contact_groups
  // ---------------------------------------------------------------------------

  datatype ContactTables = ContactTables(contacts: seq<Row>, groupContacts: seq<Row>)

  /** The loop over the fetched contacts, appending to both lists. */
  function CollectContacts(acc: ContactTables, cs: seq<Contact>): ContactTables
    decreases |cs|
  {
    if |cs| == 0 then acc
    else
      CollectContacts(
        ContactTables(acc.contacts + [ContactRecord(cs[0])], acc.groupContacts + GroupPairs(cs[0])),
        cs[1..])
  }

  /** The contact loop appends one row per contact, in contact order. */
  lemma {:induction false} CollectContactsRows(acc: ContactTables, cs: seq<Contact>)
    ensures |CollectContacts(acc, cs).contacts| == |acc.contacts| + |cs|
    ensures CollectContacts(acc, cs).contacts[..|acc.contacts|] == acc.contacts
    ensures forall i :: |acc.contacts| <= i < |CollectContacts(acc, cs).contacts| ==>
              CollectContacts(acc, cs).contacts[i] == ContactRecord(cs[i - |acc.contacts|])
    decreases |cs|
  {
    if |cs| > 0 {
      var next := ContactTables(acc.contacts + [ContactRecord(cs[0])], acc.groupContacts + GroupPairs(cs[0]));
      CollectContactsRows(next, cs[1..]);
      var r := CollectContacts(acc, cs);
      assert r == CollectContacts(next, cs[1..]);
      forall i | |acc.contacts| <= i < |r.contacts|
        ensures r.contacts[i] == ContactRecord(cs[i - |acc.contacts|])
      {
        if i > |acc.contacts| {
          assert cs[1..][i - |next.contacts|] == cs[i - |acc.contacts|];
        }
      }
    }
  }

  /** The contact loop appends the membership rows of every contact, contact by contact. */
  lemma {:induction false} CollectContactsMemberships(acc: ContactTables, cs: seq<Contact>)
    ensures CollectContacts(acc, cs).groupContacts == acc.groupContacts + Concat(Memberships(cs))
    decreases |cs|
  {
    if |cs| > 0 {
      var next := ContactTables(acc.contacts + [ContactRecord(cs[0])], acc.groupContacts + GroupPairs(cs[0]));
      assert CollectContacts(acc, cs) == CollectContacts(next, cs[1..]);
      MembershipsTail(cs);
      CollectContactsMemberships(next, cs[1..]);
      ConcatStep(acc.groupContacts, Memberships(cs));
    }
  }

  lemma MembershipsTail(cs: seq<Contact>)
    requires |cs| > 0
    ensures Memberships(cs)[0] == GroupPairs(cs[0])
    ensures Memberships(cs)[1..] == Memberships(cs[1..])
  {
    assert Memberships(cs)[1..] == Memberships(cs[1..]);
  }

  /** `get_contacts_and_contact_groups` on the already-fetched contacts. */
  function GetContactsAndContactGroups(cs: seq<Contact>): ContactTables {
    CollectContacts(ContactTables([], []), cs)
  }

  /**
   One contact row per fetched contact, in fetch order, and the membership
   rows of every contact, contact by contact.
   */
  lemma ContactTablesShape(cs: seq<Contact>)
    ensures |GetContactsAndContactGroups(cs).contacts| == |cs|
    ensures forall i :: 0 <= i < |cs| ==> GetContactsAndContactGroups(cs).contacts[i] == ContactRecord(cs[i])
    ensures GetContactsAndContactGroups(cs).groupContacts == Concat(Memberships(cs))
  {
    CollectContactsRows(ContactTables([], []), cs);
    CollectContactsMemberships(ContactTables([], []), cs);
  }

  lemma GroupContactsFlat(cs: seq<Contact>)
    ensures GetContactsAndContactGroups(cs).groupContacts == Concat(Memberships(cs))
  {
    CollectContactsMemberships(ContactTables([], []), cs);
  }

  lemma {:induction false} MembershipsTotal(cs: seq<Contact>)
    ensures TotalLength(Memberships(cs)) == GroupCount(cs)
    decreases |cs|
  {
    if |cs| > 0 {
      assert Memberships(cs)[1..] == Memberships(cs[1..]);
      MembershipsTotal(cs[1..]);
    }
  }

  /** There is one membership row per (contact, group) pair: as many as the contacts' group counts add up to. */
  lemma GroupContactsCount(cs: seq<Contact>)
    ensures |GetContactsAndContactGroups(cs).groupContacts| == GroupCount(cs)
  {
    GroupContactsFlat(cs);
    ConcatLength(Memberships(cs));
    MembershipsTotal(cs);
  }

  /**
   Membership rows are ordered by contact and then by group: the row for
   group `j` of contact `i` comes right after the memberships of the
   contacts before `i`.
   */
  lemma GroupContactsOrder(cs: seq<Contact>, i: nat, j: nat)
    requires i < |cs| && j < |cs[i].groups|
    ensures GroupCount(cs[..i]) + j < |GetContactsAndContactGroups(cs).groupContacts|
    ensures GetContactsAndContactGroups(cs).groupContacts[GroupCount(cs[..i]) + j] ==
            PairRow(cs[i].uuid, cs[i].groups[j].uuid)
  {
    var gc := GetContactsAndContactGroups(cs).groupContacts;
    var ms := Memberships(cs);
    GroupContactsFlat(cs);
    assert ms[..i] == Memberships(cs[..i]);
    MembershipsTotal(cs[..i]);
    var k := TotalLength(ms[..i]) + j;
    assert k == GroupCount(cs[..i]) + j;
    assert ms[i] == GroupPairs(cs[i]);
    ConcatIndex(ms, i, j);
    assert gc[k] == ms[i][j];
  }

  /** A row is a membership row exactly when it pairs some contact with one of that contact's groups. */
  lemma GroupContactsMembers(cs: seq<Contact>, row: Row)
    ensures row in GetContactsAndContactGroups(cs).groupContacts <==>
            exists i, j :: 0 <= i < |cs| && 0 <= j < |cs[i].groups| &&
                           row == PairRow(cs[i].uuid, cs[i].groups[j].uuid)
  {
    GroupContactsFlat(cs);
    var ms := Memberships(cs);
    ConcatMember(ms, row);
    if row in Concat(ms) {
      var i :| 0 <= i < |ms| && row in ms[i];
      assert ms[i] == GroupPairs(cs[i]);
      var j :| 0 <= j < |ms[i]| && ms[i][j] == row;
      assert row == PairRow(cs[i].uuid, cs[i].groups[j].uuid);
    }
    if exists i, j :: 0 <= i < |cs| && 0 <= j < |cs[i].groups| &&
                      row == PairRow(cs[i].uuid, cs[i].groups[j].uuid) {
      var i, j :| 0 <= i < |cs| && 0 <= j < |cs[i].groups| &&
                  row == PairRow(cs[i].uuid, cs[i].groups[j].uuid);
      assert ms[i] == GroupPairs(cs[i]);
      assert row == ms[i][j];
      assert row in ms[i];
    }
  }

  /**
   When no contact carries a custom `uuid` field, every membership row names
   the `uuid` of the contact row it was produced with.
   */
  lemma GroupContactsReferToContacts(cs: seq<Contact>, i: nat, j: nat)
    requires i < |cs| && j < |cs[i].groups|
    requires LastValue(cs[i].fields, "uuid").None?
    ensures GroupCount(cs[..i]) + j < |GetContactsAndContactGroups(cs).groupContacts|
    ensures i < |GetContactsAndContactGroups(cs).contacts|
    ensures "uuid" in GetContactsAndContactGroups(cs).contacts[i]
    ensures "contact_uuid" in GetContactsAndContactGroups(cs).groupContacts[GroupCount(cs[..i]) + j]
    ensures GetContactsAndContactGroups(cs).groupContacts[GroupCount(cs[..i]) + j]["contact_uuid"] ==
            GetContactsAndContactGroups(cs).contacts[i]["uuid"]
  {
    ContactTablesShape(cs);
    GroupContactsOrder(cs, i, j);
    ContactRowValues(cs[i]);
  }

  /** A membership row has exactly the columns of the group-contacts schema, each holding a string. */
  lemma PairRowMatchesSchema(contactUuid: string, groupUuid: string)
    ensures PairRow(contactUuid, groupUuid).Keys == Names(GROUP_CONTACT_FIELDS)
    ensures FitsSchema(PairRow(contactUuid, groupUuid), GROUP_CONTACT_FIELDS)
  {
    GroupContactFieldsNames();
    assert Lookup(GROUP_CONTACT_FIELDS, "contact_uuid") == Some(STRING);
    assert Lookup(GROUP_CONTACT_FIELDS, "group_uuid") == Some(STRING);
  }

  /** Every column of the contact schema is a STRING or a TIMESTAMP column. */
  lemma ContactColumnsHoldText(k: string)
    requires k in Names(CONTACT_FIELDS)
    ensures Lookup(CONTACT_FIELDS, k) == Some(STRING) || Lookup(CONTACT_FIELDS, k) == Some(TIMESTAMP)
  {
    ContactFieldsNames();
    assert k == "uuid" || k == "modified_on" || k == "urn";
  }

  /** Whether every custom field a contact row keeps holds a string or None. */
  ghost predicate KeepsOnlyText(c: Contact) {
    forall k :: KeptValue(c.fields, k).Some? ==>
      KeptValue(c.fields, k).value.Str? || KeptValue(c.fields, k).value.Null?
  }

  /**
   Because `str()` never survives, a contact row agrees with the contact
   schema exactly when every custom field it keeps holds a string or None.
   */
  lemma ContactRowFitsSchema(c: Contact)
    ensures FitsSchema(ContactRecord(c), CONTACT_FIELDS) <==> KeepsOnlyText(c)
  {
    if KeepsOnlyText(c) {
      TextContactRowFits(c);
    }
    if FitsSchema(ContactRecord(c), CONTACT_FIELDS) {
      FittingContactRowKeepsText(c);
    }
  }

  lemma TextContactRowFits(c: Contact)
    requires KeepsOnlyText(c)
    ensures FitsSchema(ContactRecord(c), CONTACT_FIELDS)
  {
    var r := ContactRecord(c);
    forall k | k in r
      ensures Lookup(CONTACT_FIELDS, k).Some? && Fits(r[k], Lookup(CONTACT_FIELDS, k).value)
    {
      ContactRowAt(c, k);
      ContactColumnsHoldText(k);
      if KeptValue(c.fields, k).Some? {
        assert r[k].Str? || r[k].Null?;
      } else {
        assert r[k] == BaseRecord(c)[k];
        assert r[k].Str?;
      }
    }
  }

  /** One column of a contact row: a contact-schema column holding the kept value, else the base value. */
  lemma ContactRowAt(c: Contact, k: string)
    requires k in ContactRecord(c)
    ensures k in Names(CONTACT_FIELDS)
    ensures KeptValue(c.fields, k).Some? ==> ContactRecord(c)[k] == KeptValue(c.fields, k).value
    ensures KeptValue(c.fields, k).None? ==> k in BaseRecord(c) && ContactRecord(c)[k] == BaseRecord(c)[k]
  {
    ContactRowKeys(c);
    ApplyFieldsEffect(BaseRecord(c), c.fields);
  }

  lemma FittingContactRowKeepsText(c: Contact)
    requires FitsSchema(ContactRecord(c), CONTACT_FIELDS)
    ensures KeepsOnlyText(c)
  {
    var r := ContactRecord(c);
    ApplyFieldsEffect(BaseRecord(c), c.fields);
    forall k | KeptValue(c.fields, k).Some?
      ensures KeptValue(c.fields, k).value.Str? || KeptValue(c.fields, k).value.Null?
    {
      assert k in r;
      ContactColumnsHoldText(k);
    }
  }

  /**
   A contact whose `urn` field holds the number 27 gets a row holding the
   number, not the string "27", in that STRING column.
   */
  lemma NumericUrnIsKeptRaw()
    ensures var c := Contact("c-1", DateTime("2020-01-01T00:00:00+00:00"), [], [("urn", Int(27))]);
            ContactRecord(c)["urn"] == Int(27) && !FitsSchema(ContactRecord(c), CONTACT_FIELDS)
  {
    var c := Contact("c-1", DateTime("2020-01-01T00:00:00+00:00"), [], [("urn", Int(27))]);
    ContactRowValues(c);
    ContactRowKeys(c);
    ContactFieldsNames();
    assert Lookup(CONTACT_FIELDS, "urn") == Some(STRING);
    assert LastValue(c.fields, "urn") == Some(Int(27));
    assert KeptValue(c.fields, "urn") == Some(Int(27));
  }
}
