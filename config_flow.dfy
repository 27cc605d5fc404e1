/** The user step of the configuration flow
    (custom_components/eight_sleep_local/config_flow.py): validate the host
    and port a user typed in, then either show the form again with an error
    or create the config entry. */
module ConfigFlow {
  import opened Json

  /** The submitted form; the form schema makes both fields present, the port
      coerced to an integer. */
  datatype UserInput = UserInput(host: string, port: int)

  /** A config entry's `data` dict; entries may lack either key. */
  datatype EntryData = EntryData(host: Option<string>, port: Option<int>)

  datatype FlowResult =
    | ShowForm(stepId: string, errors: map<string, string>)
    | CreateEntry(title: string, data: EntryData)

  const EntryTitle: string := "Eight Sleep Local"

  /** The entry data is the submitted form as it is. */
  function AsEntryData(u: UserInput): (d: EntryData)
    ensures d.host == Some(u.host) && d.port == Some(u.port)
  {
    EntryData(Some(u.host), Some(u.port))
  }

  predicate ValidPort(port: int) { 0 < port < 65536 }

  /** `async_step_user`: no input shows an empty form; an empty host is
      reported before the port is looked at; an out-of-range port is reported
      next; anything else becomes the entry. */
  function StepUser(input: Option<UserInput>): (r: FlowResult)
    ensures input.None? ==> r == ShowForm("user", map[])
    ensures input.Some? && input.value.host == "" ==> r == ShowForm("user", map["base" := "host_required"])
    ensures input.Some? && input.value.host != "" && !ValidPort(input.value.port) ==>
              r == ShowForm("user", map["base" := "invalid_port"])
    ensures r.CreateEntry? ==> r.title == EntryTitle && input.Some? && r.data == AsEntryData(input.value)
  {
    match input
    case None => ShowForm("user", map[])
    case Some(u) =>
      if u.host == "" then ShowForm("user", map["base" := "host_required"])
      else if !ValidPort(u.port) then ShowForm("user", map["base" := "invalid_port"])
      else CreateEntry(EntryTitle, AsEntryData(u))
  }

  /** An entry is created exactly for a non-empty host with a port in 1..65535,
      and then holds what was typed in. */
  lemma AcceptedIffValid(u: UserInput)
    ensures StepUser(Some(u)).CreateEntry? <==> u.host != "" && ValidPort(u.port)
    ensures StepUser(Some(u)).CreateEntry? ==> StepUser(Some(u)).data == AsEntryData(u)
  {
  }

  /** A rejected submission names exactly one error, under "base". */
  lemma RejectionHasOneError(u: UserInput)
    requires StepUser(Some(u)).ShowForm?
    ensures StepUser(Some(u)).errors.Keys == {"base"}
    ensures StepUser(Some(u)).errors["base"] in {"host_required", "invalid_port"}
  {
  }
}
