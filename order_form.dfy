/** The order form's validator (FormSchema) and its initial values. */
module OrderForm {
  import opened Wrappers
  import opened Seqs
  import opened Text

  /** The submitted form. Optional keys are `Option`s (`None`: the key is absent);
      the quantity is a JavaScript number. */
  datatype FormValues = FormValues(
    name: string, email: string, phoneNumber: string,
    vehicleBrand: string, vehicleModel: string, vehicleYear: string, vehicleVin: string,
    mechanicName: string, mechanicPhone: string, mechanicEmail: Option<string>,
    partName: string, partDescription: string, partQuantity: real, partOtherInformation: Option<string>,
    engineSize: Option<string>, comments: Option<string>)

  /** The fields that carry a rule; the three free-text optional fields accept any string. */
  datatype Field =
    | Name | Email | PhoneNumber
    | VehicleBrand | VehicleModel | VehicleYear | VehicleVin
    | MechanicName | MechanicPhone | MechanicEmail
    | PartName | PartDescription | PartQuantity

  /** The checked fields in declaration order. */
  const CheckedFields: seq<Field> := [
    Name, Email, PhoneNumber,
    VehicleBrand, VehicleModel, VehicleYear, VehicleVin,
    MechanicName, MechanicPhone, MechanicEmail,
    PartName, PartDescription, PartQuantity]

  /** A field's position in the schema's declaration order. */
  function FieldIndex(field: Field): int
  {
    match field
    case Name => 0 case Email => 1 case PhoneNumber => 2
    case VehicleBrand => 3 case VehicleModel => 4 case VehicleYear => 5 case VehicleVin => 6
    case MechanicName => 7 case MechanicPhone => 8 case MechanicEmail => 9
    case PartName => 10 case PartDescription => 11 case PartQuantity => 12
  }

  /** arktype's `number.integer > 0`. */
  predicate IsPositiveInteger(q: real)
  {
    q.Floor as real == q && q > 0.0
  }

  /** FormSchema accepts the value: every key's constraint holds. */
  predicate Valid(f: FormValues)
  {
    // Personal
    && |f.name| > 0
    && IsEmail(f.email)
    && IsNumeric(f.phoneNumber) && |f.phoneNumber| > 7
    // Vehicle
    && |f.vehicleBrand| > 0
    && |f.vehicleModel| > 0
    && AllDigits(f.vehicleYear) && |f.vehicleYear| > 3
    && IsAlphanumeric(f.vehicleVin)
    // Mechanic
    && |f.mechanicName| > 0
    && IsNumeric(f.mechanicPhone) && |f.mechanicPhone| > 7
    && (f.mechanicEmail.Some? ==> IsEmail(f.mechanicEmail.value))
    // Parts
    && |f.partName| > 0
    && |f.partDescription| > 0
    && IsPositiveInteger(f.partQuantity)
  }

  /** The rule for one field, as the validator reports it per field. */
  predicate FieldOk(f: FormValues, field: Field)
  {
    match field
    case Name => |f.name| > 0
    case Email => IsEmail(f.email)
    case PhoneNumber => IsNumeric(f.phoneNumber) && |f.phoneNumber| > 7
    case VehicleBrand => |f.vehicleBrand| > 0
    case VehicleModel => |f.vehicleModel| > 0
    case VehicleYear => AllDigits(f.vehicleYear) && |f.vehicleYear| > 3
    case VehicleVin => IsAlphanumeric(f.vehicleVin)
    case MechanicName => |f.mechanicName| > 0
    case MechanicPhone => IsNumeric(f.mechanicPhone) && |f.mechanicPhone| > 7
    case MechanicEmail => f.mechanicEmail.None? || IsEmail(f.mechanicEmail.value)
    case PartName => |f.partName| > 0
    case PartDescription => |f.partDescription| > 0
    case PartQuantity => IsPositiveInteger(f.partQuantity)
  }

  /** The form is valid exactly when every field passes its own rule. */
  lemma ValidIffEveryFieldOk(f: FormValues)
    ensures Valid(f) <==> forall field :: FieldOk(f, field)
  {
    if !Valid(f) {
      assert exists field :: !FieldOk(f, field) by {
        if |f.name| == 0 { assert !FieldOk(f, Name); }
        else if !IsEmail(f.email) { assert !FieldOk(f, Email); }
        else if !FieldOk(f, PhoneNumber) { }
        else if |f.vehicleBrand| == 0 { assert !FieldOk(f, VehicleBrand); }
        else if |f.vehicleModel| == 0 { assert !FieldOk(f, VehicleModel); }
        else if !FieldOk(f, VehicleYear) { }
        else if !FieldOk(f, VehicleVin) { }
        else if |f.mechanicName| == 0 { assert !FieldOk(f, MechanicName); }
        else if !FieldOk(f, MechanicPhone) { }
        else if !FieldOk(f, MechanicEmail) { }
        else if |f.partName| == 0 { assert !FieldOk(f, PartName); }
        else if |f.partDescription| == 0 { assert !FieldOk(f, PartDescription); }
        else { assert !FieldOk(f, PartQuantity); }
      }
    }
  }

  /** Every field that carries a rule is checked, once, in declaration order. */
  lemma EveryFieldChecked()
    ensures forall field: Field :: field in CheckedFields
    ensures IncreasingKeys(CheckedFields, FieldIndex)
  {
    forall i | 0 <= i < |CheckedFields| ensures FieldIndex(CheckedFields[i]) == i {
    }
    forall field: Field ensures field in CheckedFields {
      match field
      case Name => assert CheckedFields[0] == field;
      case Email => assert CheckedFields[1] == field;
      case PhoneNumber => assert CheckedFields[2] == field;
      case VehicleBrand => assert CheckedFields[3] == field;
      case VehicleModel => assert CheckedFields[4] == field;
      case VehicleYear => assert CheckedFields[5] == field;
      case VehicleVin => assert CheckedFields[6] == field;
      case MechanicName => assert CheckedFields[7] == field;
      case MechanicPhone => assert CheckedFields[8] == field;
      case MechanicEmail => assert CheckedFields[9] == field;
      case PartName => assert CheckedFields[10] == field;
      case PartDescription => assert CheckedFields[11] == field;
      case PartQuantity => assert CheckedFields[12] == field;
    }
  }

  /** The fields whose rule fails, in declaration order: all of them are reported, not only the first. */
  function FieldErrors(f: FormValues): (errs: seq<Field>)
    ensures forall field :: field in errs <==> !FieldOk(f, field)
    ensures errs == [] <==> Valid(f)
    ensures forall i, j :: 0 <= i < j < |errs| ==> FieldIndex(errs[i]) < FieldIndex(errs[j])
  {
    var errs := Filter(CheckedFields, (field: Field) => !FieldOk(f, field));
    EveryFieldChecked();
    FilterIncreasingKeys(CheckedFields, (field: Field) => !FieldOk(f, field), FieldIndex);
    ValidIffEveryFieldOk(f);
    assert errs != [] ==> errs[0] in errs;
    errs
  }

  /** An empty customer name, vehicle brand or model, mechanic name, part name or
      part description is reported, and the form is rejected. */
  lemma EmptyRequiredTextRejected(f: FormValues)
    requires f.name == [] || f.vehicleBrand == [] || f.vehicleModel == []
          || f.mechanicName == [] || f.partName == [] || f.partDescription == []
    ensures !Valid(f) && FieldErrors(f) != []
    ensures f.name == [] ==> Name in FieldErrors(f)
    ensures f.vehicleBrand == [] ==> VehicleBrand in FieldErrors(f)
    ensures f.vehicleModel == [] ==> VehicleModel in FieldErrors(f)
    ensures f.mechanicName == [] ==> MechanicName in FieldErrors(f)
    ensures f.partName == [] ==> PartName in FieldErrors(f)
    ensures f.partDescription == [] ==> PartDescription in FieldErrors(f)
  {
    if f.name == [] { assert !FieldOk(f, Name); }
    if f.vehicleBrand == [] { assert !FieldOk(f, VehicleBrand); }
    if f.vehicleModel == [] { assert !FieldOk(f, VehicleModel); }
    if f.mechanicName == [] { assert !FieldOk(f, MechanicName); }
    if f.partName == [] { assert !FieldOk(f, PartName); }
    if f.partDescription == [] { assert !FieldOk(f, PartDescription); }
  }

  /** The format rules an accepted form satisfies: numeric phones longer than
      seven characters, a year of four or more digits, a letters-and-digits VIN,
      a positive integral quantity, and a mechanic email that is absent or an address. */
  lemma ValidFormats(f: FormValues)
    requires Valid(f)
    ensures IsNumeric(f.phoneNumber) && |f.phoneNumber| >= 8
    ensures IsNumeric(f.mechanicPhone) && |f.mechanicPhone| >= 8
    ensures AllDigits(f.vehicleYear) && |f.vehicleYear| >= 4
    ensures IsAlphanumeric(f.vehicleVin)
    ensures f.partQuantity.Floor >= 1 && f.partQuantity == f.partQuantity.Floor as real
    ensures f.mechanicEmail != Some("")
  {
    assert f.mechanicEmail.Some? ==> IsEmail(f.mechanicEmail.value);
  }

  /** The optional free-text fields never change the verdict. */
  lemma OptionalFieldsIgnored(f: FormValues, info: Option<string>, engine: Option<string>, comments: Option<string>)
    ensures var g := f.(partOtherInformation := info, engineSize := engine, comments := comments);
      Valid(g) == Valid(f) && FieldErrors(g) == FieldErrors(f)
  {
    var g := f.(partOtherInformation := info, engineSize := engine, comments := comments);
    assert forall field :: FieldOk(g, field) == FieldOk(f, field);
    FilterAgreeing(CheckedFields, (field: Field) => !FieldOk(g, field), (field: Field) => !FieldOk(f, field));
  }

  /** The form's initial values: every text empty, every optional key present and
      blank, quantity 1. */
  const DefaultFormValues := FormValues(
    "", "", "",
    "", "", "", "",
    "", "", Some(""),
    "", "", 1.0, Some(""),
    Some(""), Some(""))

  /** The untouched form is rejected on every field except the VIN (blank is
      alphanumeric) and the quantity; the blank mechanic email is a present key
      that is not an address. */
  lemma DefaultFormValuesRejected()
    ensures !Valid(DefaultFormValues)
    ensures forall field :: field in FieldErrors(DefaultFormValues) <==> field != VehicleVin && field != PartQuantity
  {
    var d := DefaultFormValues;
    forall field ensures FieldOk(d, field) <==> field == VehicleVin || field == PartQuantity {
      match field
      case Email => assert !IsEmail("");
      case PhoneNumber => assert |d.phoneNumber| == 0;
      case VehicleYear => assert |d.vehicleYear| == 0;
      case VehicleVin => assert IsAlphanumeric("");
      case MechanicPhone => assert |d.mechanicPhone| == 0;
      case MechanicEmail => assert !IsEmail("");
      case PartQuantity => assert IsPositiveInteger(1.0);
      case _ =>
    }
    assert Name in FieldErrors(d);
  }

  /** A form that fails exactly one rule is reported with that one field. */
  lemma SingleFailure(f: FormValues, bad: Field)
    requires forall field :: !FieldOk(f, field) <==> field == bad
    ensures FieldErrors(f) == [bad]
  {
    var errs := FieldErrors(f);
    assert bad in errs;
    var first, last := errs[0], errs[|errs| - 1];
    assert first in errs && last in errs;
    assert FieldIndex(first) == FieldIndex(last);
    assert |errs| == 1;
  }

  /** A complete customer request with the mechanic email left blank. */
  const SampleRequest := FormValues(
    "Jane Doe", "jane@x.com", "5551234567",
    "Honda", "Civic", "2020", "ABC123",
    "Bob", "5559876543", Some(""),
    "Alternator", "OEM replacement", 1.0, None,
    None, None)

  /** The sample request passes every rule except the mechanic email's. */
  lemma SampleRequestRules()
    ensures forall field :: FieldOk(SampleRequest, field) <==> field != MechanicEmail
  {
    var f := SampleRequest;
    assert IsEmail(f.email) by {
      assert f.email[4] == '@' && f.email[..4] == "jane" && f.email[5..] == "x.com";
    }
    DigitsAreNumeric(f.phoneNumber);
    DigitsAreNumeric(f.mechanicPhone);
    forall field ensures FieldOk(f, field) <==> field != MechanicEmail {
      match field
      case VehicleYear => assert AllDigits(f.vehicleYear);
      case VehicleVin => assert IsAlphanumeric(f.vehicleVin);
      case MechanicEmail => assert !IsEmail("");
      case PartQuantity => assert IsPositiveInteger(1.0);
      case _ =>
    }
  }

  /** A blank mechanic email is a present key that is not an address, so the sample
      request is rejected on that field alone; without the key it is accepted. */
  lemma SampleRequestVerdicts()
    ensures FieldErrors(SampleRequest) == [MechanicEmail]
    ensures Valid(SampleRequest.(mechanicEmail := None))
  {
    var f := SampleRequest;
    var g := f.(mechanicEmail := None);
    SampleRequestRules();
    SingleFailure(f, MechanicEmail);
    assert forall field :: FieldOk(g, field) by {
      forall field ensures FieldOk(g, field) {
        if field != MechanicEmail {
          assert FieldOk(f, field);
        }
      }
    }
    ValidIffEveryFieldOk(g);
  }
}
