/** The citizen's report form: its state (report type, the sixteen text
    fields, the selected photos), the edits that change that state, and
    which fields the browser insists on before it lets the form be submitted. */
module ReportForm {
  import opened Common

  datatype ReportType = PersonReport | ItemReport

  datatype Field =
    | ReporterName | ReporterPhone | ReporterRelation
    | LastSeenLocation | LastSeenTime | Description
    | PersonName | PersonAge | PersonGender | PersonHeight | PersonClothing
    | ItemName | ItemType | ItemValue | ItemBrand | ItemColor

  const AllFields: seq<Field> := [
    ReporterName, ReporterPhone, ReporterRelation,
    LastSeenLocation, LastSeenTime, Description,
    PersonName, PersonAge, PersonGender, PersonHeight, PersonClothing,
    ItemName, ItemType, ItemValue, ItemBrand, ItemColor]

  datatype FormData = FormData(
    reporterName: string, reporterPhone: string, reporterRelation: string,
    lastSeenLocation: string, lastSeenTime: string, description: string,
    personName: string, personAge: string, personGender: string, personHeight: string, personClothing: string,
    itemName: string, itemType: string, itemValue: string, itemBrand: string, itemColor: string)

  /** The initial form: every field empty. */
  const EmptyForm: FormData := FormData("", "", "", "", "", "", "", "", "", "", "", "", "", "", "", "")

  /** A browser `File`; only its identity matters here. */
  datatype File = File(name: string)

  function Get(d: FormData, f: Field): string {
    match f
    case ReporterName => d.reporterName
    case ReporterPhone => d.reporterPhone
    case ReporterRelation => d.reporterRelation
    case LastSeenLocation => d.lastSeenLocation
    case LastSeenTime => d.lastSeenTime
    case Description => d.description
    case PersonName => d.personName
    case PersonAge => d.personAge
    case PersonGender => d.personGender
    case PersonHeight => d.personHeight
    case PersonClothing => d.personClothing
    case ItemName => d.itemName
    case ItemType => d.itemType
    case ItemValue => d.itemValue
    case ItemBrand => d.itemBrand
    case ItemColor => d.itemColor
  }

  /** `{ ...formData, [f]: v }`: field `f` now holds `v`, every other field is as before. */
  function Set(d: FormData, f: Field, v: string): (e: FormData)
    ensures Get(e, f) == v
    ensures forall g :: g != f ==> Get(e, g) == Get(d, g)
  {
    match f
    case ReporterName => d.(reporterName := v)
    case ReporterPhone => d.(reporterPhone := v)
    case ReporterRelation => d.(reporterRelation := v)
    case LastSeenLocation => d.(lastSeenLocation := v)
    case LastSeenTime => d.(lastSeenTime := v)
    case Description => d.(description := v)
    case PersonName => d.(personName := v)
    case PersonAge => d.(personAge := v)
    case PersonGender => d.(personGender := v)
    case PersonHeight => d.(personHeight := v)
    case PersonClothing => d.(personClothing := v)
    case ItemName => d.(itemName := v)
    case ItemType => d.(itemType := v)
    case ItemValue => d.(itemValue := v)
    case ItemBrand => d.(itemBrand := v)
    case ItemColor => d.(itemColor := v)
  }

  // ---------------------------------------------------------------------------
  // Which inputs must be filled

  /** Whether the form shows the input of `f` for report type `t`: the
      reporter, location, time and description inputs always, the person
      inputs only for a person report, the item inputs only for an item report. */
  predicate Rendered(t: ReportType, f: Field) {
    match f
    case PersonName | PersonAge | PersonGender | PersonHeight | PersonClothing => t == PersonReport
    case ItemName | ItemType | ItemValue | ItemBrand | ItemColor => t == ItemReport
    case _ => true
  }

  /** Whether the input of `f` carries the `required` attribute. */
  predicate HasRequiredAttribute(f: Field) {
    f in {ReporterName, ReporterPhone, PersonName, PersonAge, PersonGender,
          ItemName, ItemType, LastSeenLocation, LastSeenTime}
  }

  /** The fields the browser requires before submitting a report of type `t`. */
  function RequiredFields(t: ReportType): set<Field> {
    set f | f in AllFields && Rendered(t, f) && HasRequiredAttribute(f)
  }

  /** Constraint validation passes: no required input is empty (an empty
      `<select>` choice has the value ""). */
  predicate Submittable(d: FormData, t: ReportType) {
    forall f :: f in RequiredFields(t) ==> Get(d, f) != ""
  }

  lemma PersonRequiredFields()
    ensures RequiredFields(PersonReport) ==
            {ReporterName, ReporterPhone, PersonName, PersonAge, PersonGender, LastSeenLocation, LastSeenTime}
  {
  }

  lemma ItemRequiredFields()
    ensures RequiredFields(ItemReport) ==
            {ReporterName, ReporterPhone, ItemName, ItemType, LastSeenLocation, LastSeenTime}
  {
  }

  /** The seven fields without a `required` attribute are never required. */
  lemma OptionalFieldsNeverRequired(t: ReportType, f: Field)
    requires f in {ReporterRelation, PersonHeight, PersonClothing, ItemBrand, ItemColor, ItemValue, Description}
    ensures f !in RequiredFields(t)
  {
  }

  /** A person report can be submitted exactly when its seven required fields are filled. */
  lemma PersonSubmittable(d: FormData)
    ensures Submittable(d, PersonReport) <==>
            d.reporterName != "" && d.reporterPhone != "" && d.personName != "" && d.personAge != ""
            && d.personGender != "" && d.lastSeenLocation != "" && d.lastSeenTime != ""
  {
    PersonRequiredFields();
    if d.reporterName != "" && d.reporterPhone != "" && d.personName != "" && d.personAge != ""
       && d.personGender != "" && d.lastSeenLocation != "" && d.lastSeenTime != "" {
      forall f | f in RequiredFields(PersonReport) ensures Get(d, f) != "" {
      }
    }
  }

  /** An item report can be submitted exactly when its six required fields are filled. */
  lemma ItemSubmittable(d: FormData)
    ensures Submittable(d, ItemReport) <==>
            d.reporterName != "" && d.reporterPhone != "" && d.itemName != "" && d.itemType != ""
            && d.lastSeenLocation != "" && d.lastSeenTime != ""
  {
    ItemRequiredFields();
    if d.reporterName != "" && d.reporterPhone != "" && d.itemName != "" && d.itemType != ""
       && d.lastSeenLocation != "" && d.lastSeenTime != "" {
      forall f | f in RequiredFields(ItemReport) ensures Get(d, f) != "" {
      }
    }
  }

  /** Editing a field that is not required for `t` does not change whether the form can be submitted. */
  lemma EditingUnrequiredFieldKeepsSubmittable(d: FormData, t: ReportType, f: Field, v: string)
    requires f !in RequiredFields(t)
    ensures Submittable(Set(d, f, v), t) == Submittable(d, t)
  {
  }

  /** The freshly opened form cannot be submitted. */
  lemma EmptyFormNotSubmittable(t: ReportType)
    ensures !Submittable(EmptyForm, t)
  {
    assert ReporterName in RequiredFields(t);
  }

  // ---------------------------------------------------------------------------
  // The component's state

  class ReportFormState {
    var reportType: ReportType
    var formData: FormData
    var photos: seq<File>

    constructor ()
      ensures reportType == PersonReport && formData == EmptyForm && photos == []
    {
      reportType := PersonReport;
      formData := EmptyForm;
      photos := [];
    }

    /** The two type buttons: only the type changes, what was typed is kept. */
    method SelectReportType(t: ReportType)
      modifies this
      ensures reportType == t && formData == old(formData) && photos == old(photos)
    {
      reportType := t;
    }

    /** An input's `onChange`: field `f` takes the input's value. */
    method EditField(f: Field, value: string)
      modifies this
      ensures formData == Set(old(formData), f, value)
      ensures reportType == old(reportType) && photos == old(photos)
    {
      formData := Set(formData, f, value);
    }

    /** `handlePhotoUpload`: the chosen files are appended after those already
        selected; an event without a file list changes nothing. There is no cap here. */
    method HandlePhotoUpload(selected: Option<seq<File>>)
      modifies this
      ensures selected.Some? ==> photos == old(photos) + selected.value
      ensures selected.None? ==> photos == old(photos)
      ensures |photos| >= |old(photos)|
      ensures reportType == old(reportType) && formData == old(formData)
    {
      if selected.Some? {
        photos := photos + selected.value;
      }
    }
  }
}
