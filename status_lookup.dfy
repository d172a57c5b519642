/** The search of `get_status_field_id`: the id of the field named "Status"
    and the id of its option named after the requested status. The functions
    here follow the method's two loops step by step; the method itself is
    `IssueSync.ProjectItemHandler.GetStatusFieldId`. */
module StatusLookup {
  import opened Wrappers
  import opened Statuses
  import opened Responses

  /** The exact name the searched field must carry. */
  const StatusFieldName: string := "Status"

  /** The pair of ids the status mutation is called with. */
  datatype Selection = Selection(fieldId: string, optionId: string)

  /** The two locals of the search, `field_id` and `option_id`; both start as `None`. */
  datatype Scan = Scan(fieldId: Option<string>, optionId: Option<string>)

  predicate IsStatusField(f: ProjectField)
  {
    f.name == StatusFieldName
  }

  /** No field in fields[lo..hi] is named "Status". */
  predicate NoStatusFieldIn(fields: seq<ProjectField>, lo: nat, hi: nat)
    requires lo <= hi <= |fields|
  {
    forall j :: lo <= j < hi ==> !IsStatusField(fields[j])
  }

  /** Some option of f is named `name`. */
  predicate HasOption(f: ProjectField, name: string)
  {
    exists k :: 0 <= k < |f.options| && f.options[k].name == name
  }

  /** The inner loop from position k on: the index of the first option named
      `name`, where the loop breaks. */
  function FirstMatchFrom(options: seq<FieldOption>, name: string, k: nat): (r: Option<nat>)
    requires k <= |options|
    ensures r.None? <==> forall j :: k <= j < |options| ==> options[j].name != name
    ensures r.Some? ==> k <= r.value < |options| && options[r.value].name == name
    ensures r.Some? ==> forall j :: k <= j < r.value ==> options[j].name != name
    decreases |options| - k
  {
    if k == |options| then None
    else if options[k].name == name then Some(k)
    else FirstMatchFrom(options, name, k + 1)
  }

  /** One pass of the outer loop's body: a field not named "Status" is skipped;
      otherwise `field_id` takes its id and `option_id` takes the id of its
      first matching option, keeping its previous value when none matches. */
  function VisitField(acc: Scan, f: ProjectField, name: string): (r: Scan)
    ensures !IsStatusField(f) ==> r == acc
    ensures IsStatusField(f) ==> r.fieldId == Some(f.id)
    ensures IsStatusField(f) && HasOption(f, name) ==>
      exists k :: 0 <= k < |f.options| && f.options[k].name == name && r.optionId == Some(f.options[k].id)
    ensures !(IsStatusField(f) && HasOption(f, name)) ==> r.optionId == acc.optionId
  {
    if !IsStatusField(f) then acc
    else
      var optionId := match FirstMatchFrom(f.options, name, 0)
                      case Some(k) => Some(f.options[k].id)
                      case None => acc.optionId;
      Scan(Some(f.id), optionId)
  }

  /** The outer loop from position i on. */
  function ScanFrom(fields: seq<ProjectField>, name: string, acc: Scan, i: nat): (r: Scan)
    requires i <= |fields|
    ensures NoStatusFieldIn(fields, i, |fields|) ==> r == acc
    ensures !NoStatusFieldIn(fields, i, |fields|) ==> r.fieldId.Some?
    decreases |fields| - i
  {
    if i == |fields| then acc
    else ScanFrom(fields, name, VisitField(acc, fields[i], name), i + 1)
  }

  /** What `get_status_field_id` returns; `None` stands for the ValueError
      raised when either id is missing or empty. */
  function Lookup(fields: seq<ProjectField>, status: Status): (r: Option<Selection>)
    ensures r.Some? ==> r.value.fieldId != "" && r.value.optionId != ""
    ensures NoStatusFieldIn(fields, 0, |fields|) ==> r.None?
  {
    var sc := ScanFrom(fields, Name(status), Scan(None, None), 0);
    if Truthy(sc.fieldId) && Truthy(sc.optionId)
    then Some(Selection(sc.fieldId.value, sc.optionId.value))
    else None
  }

  /** `field_id` ends as the id of the LAST field named "Status", or keeps its
      starting value when there is none. */
  lemma {:induction false} ScanFieldId(fields: seq<ProjectField>, name: string, acc: Scan, i: nat)
    requires i <= |fields|
    ensures var r := ScanFrom(fields, name, acc, i);
      || (NoStatusFieldIn(fields, i, |fields|) && r.fieldId == acc.fieldId)
      || (exists j :: i <= j < |fields| && IsStatusField(fields[j]) &&
                      NoStatusFieldIn(fields, j + 1, |fields|) && r.fieldId == Some(fields[j].id))
    decreases |fields| - i
  {
    if i < |fields| {
      ScanFieldId(fields, name, VisitField(acc, fields[i], name), i + 1);
      var r := ScanFrom(fields, name, acc, i);
      if NoStatusFieldIn(fields, i + 1, |fields|) && IsStatusField(fields[i]) {
        assert r.fieldId == Some(fields[i].id);
      }
    }
  }

  /** `option_id` ends as the id of an option named `name` inside some field
      named "Status", or keeps its starting value when no such option exists. */
  lemma {:induction false} ScanOptionId(fields: seq<ProjectField>, name: string, acc: Scan, i: nat)
    requires i <= |fields|
    ensures var r := ScanFrom(fields, name, acc, i);
      || ((forall j :: i <= j < |fields| && IsStatusField(fields[j]) ==> !HasOption(fields[j], name)) &&
          r.optionId == acc.optionId)
      || (exists j, k :: i <= j < |fields| && IsStatusField(fields[j]) && 0 <= k < |fields[j].options| &&
                         fields[j].options[k].name == name && r.optionId == Some(fields[j].options[k].id))
    decreases |fields| - i
  {
    if i < |fields| {
      var f := fields[i];
      var next := VisitField(acc, f, name);
      ScanOptionId(fields, name, next, i + 1);
      if IsStatusField(f) {
        match FirstMatchFrom(f.options, name, 0)
        case Some(k) =>
          assert next.optionId == Some(f.options[k].id);
        case None =>
          assert !HasOption(f, name);
      }
    }
  }

  /** A successful lookup returns non-empty ids: the field id of the last field
      named "Status", and the id of an option named after the requested status
      inside a field named "Status". */
  lemma LookupSound(fields: seq<ProjectField>, status: Status)
    requires Lookup(fields, status).Some?
    ensures var sel := Lookup(fields, status).value;
      && sel.fieldId != "" && sel.optionId != ""
      && (exists j :: 0 <= j < |fields| && IsStatusField(fields[j]) && fields[j].id == sel.fieldId &&
                      NoStatusFieldIn(fields, j + 1, |fields|))
      && (exists j, k :: 0 <= j < |fields| && IsStatusField(fields[j]) && 0 <= k < |fields[j].options| &&
                         fields[j].options[k].name == Name(status) && fields[j].options[k].id == sel.optionId)
  {
    ScanFieldId(fields, Name(status), Scan(None, None), 0);
    ScanOptionId(fields, Name(status), Scan(None, None), 0);
  }

  /** The lookup raises when the project has no field named "Status", or when
      no field named "Status" has an option named after the requested status. */
  lemma LookupFailsWhenMissing(fields: seq<ProjectField>, status: Status)
    requires || NoStatusFieldIn(fields, 0, |fields|)
             || forall j :: 0 <= j < |fields| && IsStatusField(fields[j]) ==> !HasOption(fields[j], Name(status))
    ensures Lookup(fields, status).None?
  {
    ScanFieldId(fields, Name(status), Scan(None, None), 0);
    ScanOptionId(fields, Name(status), Scan(None, None), 0);
  }

  /** Fields not named "Status" leave both locals as they are. */
  lemma {:induction false} ScanSkipsOtherFields(fields: seq<ProjectField>, name: string, acc: Scan, i: nat, j: nat)
    requires i <= j <= |fields|
    requires NoStatusFieldIn(fields, i, j)
    ensures ScanFrom(fields, name, acc, i) == ScanFrom(fields, name, acc, j)
    decreases j - i
  {
    if i < j {
      ScanSkipsOtherFields(fields, name, acc, i + 1, j);
    }
  }

  /** With exactly one field named "Status", the lookup returns that field's id
      and the id of its FIRST option named after the status, and raises when
      either is missing or empty. */
  lemma LookupSingleStatusField(fields: seq<ProjectField>, status: Status, i: nat)
    requires i < |fields| && IsStatusField(fields[i])
    requires forall j :: 0 <= j < |fields| && j != i ==> !IsStatusField(fields[j])
    ensures Lookup(fields, status) ==
      match FirstMatchFrom(fields[i].options, Name(status), 0)
      case None => None
      case Some(k) =>
        if fields[i].id != "" && fields[i].options[k].id != ""
        then Some(Selection(fields[i].id, fields[i].options[k].id))
        else None
  {
    var name := Name(status);
    var start := Scan(None, None);
    ScanSkipsOtherFields(fields, name, start, 0, i);
    var after := VisitField(start, fields[i], name);
    ScanSkipsOtherFields(fields, name, after, i + 1, |fields|);
  }

  /** Because `option_id` is not reset between fields, two fields named
      "Status" can yield the second field's id paired with an option of the
      first field. */
  lemma DuplicateStatusFieldsPairForeignOption()
    ensures Lookup([ProjectField("F1", "Status", [FieldOption("O1", "Done")]),
                    ProjectField("F2", "Status", [])], Done)
            == Some(Selection("F2", "O1"))
  {
  }

  /** With one field named "Status" whose options have distinct ids, two
      different statuses never resolve to the same option: the six status
      names are pairwise distinct. */
  lemma LookupSeparatesStatuses(fields: seq<ProjectField>, i: nat, s: Status, t: Status)
    requires i < |fields| && IsStatusField(fields[i])
    requires forall j :: 0 <= j < |fields| && j != i ==> !IsStatusField(fields[j])
    requires forall k, m :: 0 <= k < m < |fields[i].options| ==> fields[i].options[k].id != fields[i].options[m].id
    requires Lookup(fields, s).Some? && Lookup(fields, t).Some?
    requires s != t
    ensures Lookup(fields, s).value.optionId != Lookup(fields, t).value.optionId
  {
    LookupSingleStatusField(fields, s, i);
    LookupSingleStatusField(fields, t, i);
    var options := fields[i].options;
    var ks := FirstMatchFrom(options, Name(s), 0).value;
    var kt := FirstMatchFrom(options, Name(t), 0).value;
    NamesDistinct(s, t);
    assert options[ks].name != options[kt].name;
    assert ks < kt || kt < ks;
  }
}
