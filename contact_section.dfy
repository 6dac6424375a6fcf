/**
 * The homepage contact form (src/components/homepage/contact-section.tsx): the
 * schema's rules, the event-type choices it offers, and what a submission does
 * to the form. The email check belongs to the schema library and is a parameter.
 */
module ContactSection {
  import opened Lists
  import Types
  import Db
  import Seed
  import AdminPage

  /** The form's values (`ContactFormData`); every field is a string. */
  datatype ContactFormData = ContactFormData(
    firstName: string,
    lastName: string,
    email: string,
    phoneNumber: string,
    eventTypeId: string,
    dateOfEvent: string,
    venueLocation: string,
    eventDescription: string)

  /** The schema's fields, each with one rule. */
  datatype Field = FirstName | LastName | Email | PhoneNumber | EventTypeId | DateOfEvent | VenueLocation | EventDescription

  /** The schema's fields in declaration order. */
  const SchemaOrder: seq<Field> := [FirstName, LastName, Email, PhoneNumber, EventTypeId, DateOfEvent, VenueLocation, EventDescription]

  /** `contactSchema`'s rule for one field: a minimum length, or the email check. */
  predicate RuleHolds(d: ContactFormData, f: Field, isEmail: string -> bool) {
    match f
    case FirstName => |d.firstName| >= 1
    case LastName => |d.lastName| >= 1
    case Email => isEmail(d.email)
    case PhoneNumber => |d.phoneNumber| >= 10
    case EventTypeId => |d.eventTypeId| >= 1
    case DateOfEvent => |d.dateOfEvent| >= 1
    case VenueLocation => |d.venueLocation| >= 1
    case EventDescription => |d.eventDescription| >= 10
  }

  function Fails(d: ContactFormData, isEmail: string -> bool): Field -> bool {
    f => !RuleHolds(d, f, isEmail)
  }

  /** The fields the schema reports, in declaration order; the form is submitted only when there are none. */
  function Issues(d: ContactFormData, isEmail: string -> bool): (r: seq<Field>)
    ensures forall f :: f in r <==> !RuleHolds(d, f, isEmail)
    ensures r == [] <==> forall f :: RuleHolds(d, f, isEmail)
    ensures |r| <= |SchemaOrder|
  {
    IssuesAreFailingRules(d, isEmail);
    Filter(SchemaOrder, Fails(d, isEmail))
  }

  lemma IssuesAreFailingRules(d: ContactFormData, isEmail: string -> bool)
    ensures var r := Filter(SchemaOrder, Fails(d, isEmail));
      && (forall f :: f in r <==> !RuleHolds(d, f, isEmail))
      && (r == [] <==> forall f :: RuleHolds(d, f, isEmail))
  {
    var r := Filter(SchemaOrder, Fails(d, isEmail));
    EveryFieldListed();
    assert forall f :: f in r <==> !RuleHolds(d, f, isEmail);
    if r != [] { assert r[0] in r; }
  }

  lemma EveryFieldListed()
    ensures forall f :: f in SchemaOrder
  {
    forall f ensures f in SchemaOrder {
      match f
      case FirstName => assert SchemaOrder[0] == f;
      case LastName => assert SchemaOrder[1] == f;
      case Email => assert SchemaOrder[2] == f;
      case PhoneNumber => assert SchemaOrder[3] == f;
      case EventTypeId => assert SchemaOrder[4] == f;
      case DateOfEvent => assert SchemaOrder[5] == f;
      case VenueLocation => assert SchemaOrder[6] == f;
      case EventDescription => assert SchemaOrder[7] == f;
    }
  }

  /** The phone rule counts characters, not digits: any ten characters pass. */
  lemma PhoneRuleCountsCharacters(isEmail: string -> bool)
    ensures PhoneNumber !in Issues(ContactFormData("", "", "", "call me!!!", "", "", "", ""), isEmail)
  {
  }

  /** The values a reset form holds. */
  const EmptyForm: ContactFormData := ContactFormData("", "", "", "", "", "", "", "")

  /** An untouched form fails every length rule. */
  lemma EmptyFormRejected(isEmail: string -> bool)
    ensures forall f :: f != Email ==> f in Issues(EmptyForm, isEmail)
  {
  }

  /** The event types the select offers: `id` is the option's value as `parseInt` reads it. */
  datatype EventTypeOption = EventTypeOption(id: nat, name: string)

  const EventTypeOptions: seq<EventTypeOption> := [
    EventTypeOption(1, "Wedding"), EventTypeOption(2, "Corporate Event"), EventTypeOption(3, "Birthday Party"),
    EventTypeOption(4, "School Dance"), EventTypeOption(5, "Anniversary"), EventTypeOption(6, "Other")
  ]

  /** The option values are exactly 1 to 6, in order, so any choice passes the event-type rule. */
  lemma OptionsAreOneToSix()
    ensures |EventTypeOptions| == 6
    ensures forall i :: 0 <= i < 6 ==> EventTypeOptions[i].id == i + 1
  {
  }

  /**
   * The event types as the seed script leaves an empty table whose ids start
   * at 1 (`Seed.SeedOnEmptyTable` proves the seed gives exactly these rows).
   */
  function SeededTypes(): seq<Types.EventType> {
    Seed.FreshRows(1, Seed.EventTypeNames)
  }

  /** On a freshly seeded store, id `i + 1` names the `i`-th default type. */
  lemma SeededName(i: nat)
    requires i < |Seed.EventTypeNames|
    ensures AdminPage.EventTypeName(SeededTypes(), i + 1) == Seed.EventTypeNames[i]
  {
    var rows := SeededTypes();
    assert rows[i] == Types.EventType(i + 1, Seed.EventTypeNames[i]);
    assert forall j :: 0 <= j < i ==> rows[j].id != i + 1;
    assert Seed.EventTypeNames[i] != "";
  }

  /**
   * On a freshly seeded store, the ids the form sends for "Anniversary" and
   * "Other" name different types: the seed gives 5 to "Prom" and 6 to
   * "Graduation Party", and the admin dashboard shows those names.
   */
  lemma OptionsMislabelSeededTypes()
    ensures EventTypeOptions[4] == EventTypeOption(5, "Anniversary")
    ensures AdminPage.EventTypeName(SeededTypes(), 5) == "Prom"
    ensures EventTypeOptions[5] == EventTypeOption(6, "Other")
    ensures AdminPage.EventTypeName(SeededTypes(), 6) == "Graduation Party"
  {
    SeededName(4);
    SeededName(5);
  }

  /** The same six choices with the ids the seed gives their names. */
  const SeededEventTypeOptions: seq<EventTypeOption> := [
    EventTypeOption(1, "Wedding"), EventTypeOption(2, "Corporate Event"), EventTypeOption(3, "Birthday Party"),
    EventTypeOption(4, "School Dance"), EventTypeOption(7, "Anniversary"), EventTypeOption(9, "Other")
  ]

  /** With those ids, the dashboard shows every choice under the name the guest picked. */
  lemma SeededOptionsNameTheirTypes()
    ensures forall k :: 0 <= k < |SeededEventTypeOptions| ==>
      AdminPage.EventTypeName(SeededTypes(), SeededEventTypeOptions[k].id) == SeededEventTypeOptions[k].name
  {
    forall k | 0 <= k < |SeededEventTypeOptions|
      ensures AdminPage.EventTypeName(SeededTypes(), SeededEventTypeOptions[k].id) == SeededEventTypeOptions[k].name
    {
      var o := SeededEventTypeOptions[k];
      assert o.name == Seed.EventTypeNames[o.id - 1] by {
        if k == 0 { } else if k == 1 { } else if k == 2 { } else if k == 3 { } else if k == 4 { } else { assert k == 5; }
      }
      SeededName(o.id - 1);
    }
  }

  // ------------------------------------------------------------ the form

  class ContactForm {
    var values: ContactFormData
    var isSubmitting: bool

    constructor ()
      ensures values == EmptyForm && !isSubmitting
    {
      values := EmptyForm;
      isSubmitting := false;
    }

    /** What the guest types or selects. */
    method SetValues(d: ContactFormData)
      modifies this`values
      ensures values == d
    {
      values := d;
    }

    /**
     * Submitting: nothing is sent while the schema reports issues; otherwise
     * `onSubmit` posts the values (`ok` is whether the answer was ok), resets
     * the form on success, and always ends with `isSubmitting` false.
     */
    method Submit(isEmail: string -> bool, ok: bool) returns (sent: bool)
      modifies this`values, this`isSubmitting
      ensures sent <==> Issues(old(values), isEmail) == []
      ensures !sent ==> values == old(values) && isSubmitting == old(isSubmitting)
      ensures sent ==> !isSubmitting && values == if ok then EmptyForm else old(values)
    {
      var issues := Issues(values, isEmail);
      if issues != [] {
        return false;
      }
      sent := true;
      isSubmitting := true;
      if ok {
        values := EmptyForm;
      }
      isSubmitting := false;
    }
  }
}
