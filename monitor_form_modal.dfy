/**
 * The create/edit form (components/MonitorFormModal.tsx): the record it starts from,
 * its single-field updates, and the record it hands to `onSave`.
 */
module MonitorFormModal {
  import opened Wrappers
  import opened Types

  /**
   * The initial `formData`: a copy of the monitor being edited (with `useRegex`
   * normalised by `|| false`), or the defaults with a fresh id for a new monitor.
   */
  function InitialForm(monitor: Option<MonitorConfig>, freshId: string): (r: MonitorConfig)
    ensures monitor.Some? ==> r == monitor.value
    ensures monitor.None? ==>
      && r.id == freshId && r.channel == "" && r.keywords == []
      && r.isEnabled && !r.useRegex && r.backendUrl == None
  {
    match monitor
    case Some(m) => m.(useRegex := m.useRegex || false)
    case None => MonitorConfig(id := freshId, channel := "", keywords := [], useRegex := false,
                               isEnabled := true, backendUrl := None)
  }

  /**
   * `{ ...prev, [name]: value }` for the record's string properties: the one named
   * `name` is replaced. Any other name would store a string outside the record's
   * typed string fields, which this model does not represent; the form is then
   * returned as it was.
   */
  function SetTextField(form: MonitorConfig, name: string, value: string): (r: MonitorConfig)
    ensures name == "channel" ==> r == form.(channel := value)
    ensures name == "id" ==> r == form.(id := value)
    ensures name == "backendUrl" ==> r == form.(backendUrl := Some(value))
    ensures name !in {"channel", "id", "backendUrl"} ==> r == form
  {
    if name == "channel" then form.(channel := value)
    else if name == "id" then form.(id := value)
    else if name == "backendUrl" then form.(backendUrl := Some(value))
    else form
  }

  class Form {
    var formData: MonitorConfig

    constructor (monitor: Option<MonitorConfig>, freshId: string)
      ensures formData == InitialForm(monitor, freshId)
    {
      formData := InitialForm(monitor, freshId);
    }

    /** `handleChange`, called by the form's only text input, named "channel". */
    method HandleChange(name: string, value: string)
      requires name == "channel"
      modifies this
      ensures formData == SetTextField(old(formData), name, value)
      ensures formData == old(formData).(channel := value)
    {
      formData := SetTextField(formData, name, value);
    }

    /** `handleKeywordsChange`. */
    method HandleKeywordsChange(newKeywords: seq<string>)
      modifies this
      ensures formData == old(formData).(keywords := newKeywords)
    {
      formData := formData.(keywords := newKeywords);
    }

    /** The regex checkbox's `onChange`. */
    method SetUseRegex(checked: bool)
      modifies this
      ensures formData == old(formData).(useRegex := checked)
    {
      formData := formData.(useRegex := checked);
    }

    /** `handleSubmit`: the record passed to `onSave`. */
    method HandleSubmit() returns (saved: MonitorConfig)
      ensures saved == formData
    {
      saved := formData;
    }
  }

  /** Editing the channel field changes the channel and nothing else, the id in particular. */
  lemma ChannelEditKeepsOtherFields(form: MonitorConfig, value: string)
    ensures var r := SetTextField(form, "channel", value);
      && r.channel == value && r.id == form.id && r.keywords == form.keywords
      && r.useRegex == form.useRegex && r.isEnabled == form.isEnabled && r.backendUrl == form.backendUrl
  {
  }
}
