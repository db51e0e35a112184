/**
 * The "add remote agent" dialog of the agent list page: the form state, the
 * event handlers that change it, the two button predicates, and the details
 * record handed to the external registration call.
 *
 * The agent-card fetch and the registration call are outside this model:
 * each handler that makes one takes its outcome as a parameter.
 */
module AgentList {
  import opened Wrappers
  import opened ModeText

  /** The parts of a fetched agent card that the dialog reads. */
  datatype Provider = Provider(organization: string)
  datatype Capabilities = Capabilities(streaming: bool, pushNotifications: bool)
  datatype AgentCard = AgentCard(
    name: string,
    description: string,
    provider: Option<Provider>,
    defaultInputModes: seq<string>,
    defaultOutputModes: seq<string>,
    capabilities: Capabilities)

  /** Outcome of fetching the card at an address: the card, or an exception. */
  datatype CardFetch = Fetched(card: AgentCard) | FetchRaised

  /** Outcome of the external registration call: success, or an exception with its text. */
  datatype Registration = Registered | RegistrationRaised(message: string)

  /** The details mapping passed to the registration call. */
  datatype AgentDetails = AgentDetails(
    name: Option<string>,
    address: string,
    description: string,
    inputModes: seq<string>,
    outputModes: seq<string>,
    streamSupported: bool,
    pushNotificationsSupported: bool,
    frameworkType: string,
    manualInput: bool,
    testConnection: bool)

  /** The value of the dialog's form state at one moment. */
  datatype AgentView = AgentView(
    agentDialogOpen: bool,
    agentAddress: string,
    agentName: Option<string>,
    agentDescription: string,
    agentFrameworkType: string,
    inputModes: seq<string>,
    outputModes: seq<string>,
    streamSupported: bool,
    pushNotificationsSupported: bool,
    manualInput: bool,
    testConnection: bool,
    error: Option<string>)

  /** The initial form state, also what "Cancel" restores. */
  const Defaults := AgentView(false, "", Some(""), "", "", [], [], false, false, false, true, Some(""))

  const ConnectErrorPrefix := "Cannot connect to agent as "
  const SaveErrorPrefix := "Failed to save agent: "

  /** The "Read" button is shown. */
  predicate ShowRead(v: AgentView) {
    !v.manualInput && !Truthy(v.agentName)
  }

  /** The "Save" button is shown. */
  predicate ShowSave(v: AgentView) {
    v.manualInput || (Truthy(v.agentName) && !Truthy(v.error))
  }

  /**
   * The agent name is `None` only while an error is shown: the only handler that
   * clears the name records why in the same step.
   */
  predicate Consistent(v: AgentView) {
    v.agentName.None? ==> Truthy(v.error)
  }

  /** The framework type read from a card: the provider's organization, or `""`. */
  function FrameworkOf(card: AgentCard): string {
    match card.provider
    case Some(p) => p.organization
    case None => ""
  }

  /** The form state after "Read" with the given fetch outcome. */
  function Loaded(v: AgentView, fetch: CardFetch): AgentView {
    match fetch
    case Fetched(card) =>
      v.(agentName := Some(card.name),
         agentDescription := card.description,
         agentFrameworkType := FrameworkOf(card),
         inputModes := card.defaultInputModes,
         outputModes := card.defaultOutputModes,
         streamSupported := card.capabilities.streaming,
         pushNotificationsSupported := card.capabilities.pushNotifications,
         error := None)
    case FetchRaised =>
      v.(agentName := None, error := Some(ConnectErrorPrefix + v.agentAddress))
  }

  /**
   * The details "Save" hands to the registration call, or `None` when it
   * returns without calling it. In manual mode the address field holds the
   * agent's name and serves as both name and address; otherwise the dialog
   * sends what "Read" loaded, or, when the connection is not to be tested,
   * a record holding nothing but the address.
   */
  function BuildDetails(v: AgentView): (r: Option<AgentDetails>)
    ensures r.Some? <==> v.manualInput || (v.agentAddress != "" && (!Truthy(v.error) || !v.testConnection))
    ensures r.Some? ==> r.value.manualInput == v.manualInput
  {
    if v.manualInput then
      Some(AgentDetails(
        Some(Strip(v.agentAddress)), Strip(v.agentAddress), v.agentDescription,
        v.inputModes, v.outputModes, v.streamSupported, v.pushNotificationsSupported,
        v.agentFrameworkType, true, v.testConnection))
    else if v.agentAddress != "" && !Truthy(v.error) then
      Some(AgentDetails(
        v.agentName, Strip(v.agentAddress), v.agentDescription,
        v.inputModes, v.outputModes, v.streamSupported, v.pushNotificationsSupported,
        v.agentFrameworkType, false, v.testConnection))
    else if v.agentAddress != "" && !v.testConnection then
      Some(AgentDetails(Some(""), Strip(v.agentAddress), "", [], [], false, false, "", false, false))
    else
      None
  }

  /** The form state after "Save" with the given outcome of the registration call. */
  function Saved(v: AgentView, outcome: Registration): AgentView {
    if BuildDetails(v).None? then v
    else
      match outcome
      case RegistrationRaised(message) => v.(error := Some(SaveErrorPrefix + message))
      case Registered =>
        v.(agentAddress := "",
           agentName := Some(""),
           agentDescription := "",
           inputModes := [],
           outputModes := [],
           streamSupported := false,
           pushNotificationsSupported := false,
           manualInput := false,
           testConnection := true,
           error := None,
           agentDialogOpen := false)
  }

  /** Every details record sent carries the stripped address field as its address. */
  lemma SaveSendsStrippedAddress(v: AgentView)
    requires BuildDetails(v).Some?
    ensures BuildDetails(v).value.address == Strip(v.agentAddress)
    ensures IsStripped(BuildDetails(v).value.address)
  {
  }

  /** The two buttons are never shown together; neither is shown exactly when an auto-mode read left a name and an error. */
  lemma ButtonsExclusive(v: AgentView)
    ensures !(ShowRead(v) && ShowSave(v))
    ensures !ShowRead(v) && !ShowSave(v) <==> !v.manualInput && Truthy(v.agentName) && Truthy(v.error)
  {
  }

  /** The defaults offer "Read" and not "Save", and are consistent. */
  lemma DefaultsButtons()
    ensures ShowRead(Defaults) && !ShowSave(Defaults)
    ensures Consistent(Defaults)
  {
  }

  /**
   * "Read" changes only what the card describes and the error: address, mode
   * switches and the dialog flag stay. A successful read offers "Save" iff the
   * card has a non-empty name (always in manual mode); a failed one names the
   * address in the error and offers "Read" again in auto mode.
   */
  lemma LoadOutcome(v: AgentView, fetch: CardFetch)
    ensures var w := Loaded(v, fetch);
      w.agentAddress == v.agentAddress && w.manualInput == v.manualInput &&
      w.testConnection == v.testConnection && w.agentDialogOpen == v.agentDialogOpen && Consistent(w)
    ensures fetch.Fetched? ==> var w, card := Loaded(v, fetch), fetch.card;
      w.agentName == Some(card.name) && w.error == None &&
      w.agentDescription == card.description &&
      (card.provider.None? ==> w.agentFrameworkType == "") &&
      (card.provider.Some? ==> w.agentFrameworkType == card.provider.value.organization) &&
      w.inputModes == card.defaultInputModes && w.outputModes == card.defaultOutputModes &&
      w.streamSupported == card.capabilities.streaming &&
      w.pushNotificationsSupported == card.capabilities.pushNotifications &&
      (ShowRead(w) <==> !v.manualInput && card.name == "") &&
      (ShowSave(w) <==> v.manualInput || card.name != "")
    ensures fetch.FetchRaised? ==> var w := Loaded(v, fetch);
      w == v.(agentName := None, error := Some(ConnectErrorPrefix + v.agentAddress)) &&
      (ShowRead(w) <==> !v.manualInput) && (ShowSave(w) <==> v.manualInput)
  {
  }

  /**
   * What "Read" shows is what "Save" registers: after a successful read in auto
   * mode at a non-empty address, the details carry the card's fields and the
   * stripped address.
   */
  lemma LoadThenSave(v: AgentView, card: AgentCard)
    requires !v.manualInput && v.agentAddress != ""
    ensures BuildDetails(Loaded(v, Fetched(card))) == Some(AgentDetails(
      Some(card.name), Strip(v.agentAddress), card.description,
      card.defaultInputModes, card.defaultOutputModes,
      card.capabilities.streaming, card.capabilities.pushNotifications,
      FrameworkOf(card), false, v.testConnection))
  {
  }

  /** In manual mode the stripped address field is both the name and the address sent. */
  lemma ManualSave(v: AgentView)
    requires v.manualInput
    ensures BuildDetails(v).Some?
    ensures var d := BuildDetails(v).value;
      d.name == Some(d.address) && d.manualInput &&
      d.description == v.agentDescription && d.frameworkType == v.agentFrameworkType &&
      d.inputModes == v.inputModes && d.outputModes == v.outputModes &&
      d.streamSupported == v.streamSupported && d.pushNotificationsSupported == v.pushNotificationsSupported &&
      d.testConnection == v.testConnection
  {
  }

  /** An untested auto-mode save sends the address and nothing else. */
  lemma UntestedSave(v: AgentView)
    requires !v.manualInput && v.agentAddress != "" && Truthy(v.error) && !v.testConnection
    ensures BuildDetails(v) == Some(AgentDetails(Some(""), Strip(v.agentAddress), "", [], [], false, false, "", false, false))
  {
  }

  /**
   * An auto-mode save with an address and no error sends the form as it
   * stands, whatever edits led there: the name, description, modes, flags and
   * framework type currently held, with the stripped address.
   */
  lemma AutoSave(v: AgentView)
    requires !v.manualInput && v.agentAddress != "" && !Truthy(v.error)
    ensures BuildDetails(v).Some?
    ensures var d := BuildDetails(v).value;
      d.name == v.agentName && d.address == Strip(v.agentAddress) && !d.manualInput &&
      d.description == v.agentDescription && d.frameworkType == v.agentFrameworkType &&
      d.inputModes == v.inputModes && d.outputModes == v.outputModes &&
      d.streamSupported == v.streamSupported && d.pushNotificationsSupported == v.pushNotificationsSupported &&
      d.testConnection == v.testConnection
  {
  }

  /**
   * In a consistent form the registration never receives a missing name: the
   * name is `None` only after a failed "Read", and then the error it left
   * blocks the branch that sends the name.
   */
  lemma SaveSendsName(v: AgentView)
    requires Consistent(v) && BuildDetails(v).Some?
    ensures BuildDetails(v).value.name.Some?
  {
  }

  /** Without that invariant a form could send a missing name. */
  lemma InconsistentSendsNoName()
    ensures var v := Defaults.(agentAddress := "h", agentName := None, error := None);
      !Consistent(v) && BuildDetails(v).Some? && BuildDetails(v).value.name.None?
  {
  }

  /** Whenever "Save" is shown and the address field is filled, pressing it calls the registration. */
  lemma SaveButtonSends(v: AgentView)
    requires ShowSave(v) && v.agentAddress != ""
    ensures BuildDetails(v).Some?
  {
  }

  /** But "Save" can be shown with an empty address in auto mode, and then it does nothing. */
  lemma SaveButtonWithoutAddress()
    ensures var v := Defaults.(agentName := Some("echo"), error := None);
      ShowSave(v) && BuildDetails(v).None? && Saved(v, Registered) == v
  {
  }

  /**
   * A successful save closes the dialog and restores every default except the
   * framework type, which the reset leaves as it was, and the error, which it
   * sets to `None`; the buttons are then those of the defaults.
   */
  lemma SaveSucceeded(v: AgentView)
    requires BuildDetails(v).Some?
    ensures Saved(v, Registered) == Defaults.(agentFrameworkType := v.agentFrameworkType, error := None)
    ensures ShowRead(Saved(v, Registered)) && !ShowSave(Saved(v, Registered))
  {
  }

  /**
   * A failed save changes only the error, which names the failure; the dialog
   * stays open, and in auto mode "Save" is no longer offered.
   */
  lemma SaveFailed(v: AgentView, message: string)
    requires BuildDetails(v).Some?
    ensures var w := Saved(v, RegistrationRaised(message));
      w == v.(error := Some(SaveErrorPrefix + message)) && Truthy(w.error) &&
      w.agentDialogOpen == v.agentDialogOpen && (ShowSave(w) <==> v.manualInput)
  {
  }

  /** Every handler keeps the form state consistent. */
  lemma TransitionsConsistent(v: AgentView, fetch: CardFetch, outcome: Registration)
    requires Consistent(v)
    ensures Consistent(Loaded(v, fetch))
    ensures Consistent(Saved(v, outcome))
  {
  }

  /** The dialog's form state, updated in place by the event handlers. */
  class AgentState {
    var agentDialogOpen: bool
    var agentAddress: string
    var agentName: Option<string>
    var agentDescription: string
    var agentFrameworkType: string
    var inputModes: seq<string>
    var outputModes: seq<string>
    var streamSupported: bool
    var pushNotificationsSupported: bool
    var manualInput: bool
    var testConnection: bool
    var error: Option<string>

    function View(): AgentView
      reads this
    {
      AgentView(agentDialogOpen, agentAddress, agentName, agentDescription, agentFrameworkType,
                inputModes, outputModes, streamSupported, pushNotificationsSupported,
                manualInput, testConnection, error)
    }

    ghost predicate Valid()
      reads this
    {
      Consistent(View())
    }

    constructor ()
      ensures Valid() && View() == Defaults
    {
      agentDialogOpen, agentAddress, agentName := false, "", Some("");
      agentDescription, agentFrameworkType := "", "";
      inputModes, outputModes := [], [];
      streamSupported, pushNotificationsSupported := false, false;
      manualInput, testConnection, error := false, true, Some("");
    }

    method SetAgentAddress(value: string)
      requires Valid()
      modifies this
      ensures Valid() && View() == old(View()).(agentAddress := value)
    {
      agentAddress := value;
    }

    method SetTestConnection(checked: bool)
      requires Valid()
      modifies this
      ensures Valid() && View() == old(View()).(testConnection := checked)
    {
      testConnection := checked;
    }

    /** Switching manual input leaves address, name and error as they were. */
    method SetManualInput(checked: bool)
      requires Valid()
      modifies this
      ensures Valid() && View() == old(View()).(manualInput := checked)
    {
      manualInput := checked;
    }

    method SetAgentDescription(value: string)
      requires Valid()
      modifies this
      ensures Valid() && View() == old(View()).(agentDescription := value)
    {
      agentDescription := value;
    }

    method SetAgentFrameworkType(value: string)
      requires Valid()
      modifies this
      ensures Valid() && View() == old(View()).(agentFrameworkType := value)
    {
      agentFrameworkType := value;
    }

    method SetInputModes(text: string)
      requires Valid()
      modifies this
      ensures Valid() && View() == old(View()).(inputModes := ParseModes(text))
    {
      inputModes := ParseModes(text);
    }

    method SetOutputModes(text: string)
      requires Valid()
      modifies this
      ensures Valid() && View() == old(View()).(outputModes := ParseModes(text))
    {
      outputModes := ParseModes(text);
    }

    method SetStreamSupported(checked: bool)
      requires Valid()
      modifies this
      ensures Valid() && View() == old(View()).(streamSupported := checked)
    {
      streamSupported := checked;
    }

    method SetPushNotificationsSupported(checked: bool)
      requires Valid()
      modifies this
      ensures Valid() && View() == old(View()).(pushNotificationsSupported := checked)
    {
      pushNotificationsSupported := checked;
    }

    /** "Read": fetch the card at the address and copy it into the form, or record the failure. */
    method LoadAgentInfo(fetch: CardFetch)
      requires Valid()
      modifies this
      ensures Valid() && View() == Loaded(old(View()), fetch)
    {
      error := None;
      match fetch {
        case Fetched(card) =>
          agentName := Some(card.name);
          agentDescription := card.description;
          agentFrameworkType := FrameworkOf(card);
          inputModes := card.defaultInputModes;
          outputModes := card.defaultOutputModes;
          streamSupported := card.capabilities.streaming;
          pushNotificationsSupported := card.capabilities.pushNotifications;
        case FetchRaised =>
          agentName := None;
          error := Some(ConnectErrorPrefix + agentAddress);
      }
    }

    /** "Cancel": close the dialog and restore every default. */
    method CancelAgentDialog()
      modifies this
      ensures Valid() && View() == Defaults
    {
      agentDialogOpen := false;
      agentAddress := "";
      agentName := Some("");
      agentDescription := "";
      agentFrameworkType := "";
      inputModes := [];
      outputModes := [];
      streamSupported := false;
      pushNotificationsSupported := false;
      error := Some("");
      manualInput := false;
      testConnection := true;
    }

    /**
     * "Save": build the details; if there are none, return untouched. Otherwise
     * call the registration, whose outcome is `outcome`: on failure record the
     * error and keep everything else, on success reset the form and close it.
     * `sent` is what the registration call received, `None` when it was not made.
     */
    method SaveAgent(outcome: Registration) returns (sent: Option<AgentDetails>)
      requires Valid()
      modifies this
      ensures sent == BuildDetails(old(View()))
      ensures sent.Some? ==> sent.value.name.Some?
      ensures Valid() && View() == Saved(old(View()), outcome)
    {
      ghost var before := View();
      TransitionsConsistent(before, FetchRaised, outcome);
      sent := BuildDetails(View());
      if sent.None? {
        assert Saved(before, outcome) == before;
        return;
      }

      if outcome.RegistrationRaised? {
        SaveSendsName(before);
        SaveFailed(before, outcome.message);
        error := Some(SaveErrorPrefix + outcome.message);
        return;
      }

      SaveSendsName(before);
      SaveSucceeded(before);
      ResetAfterSave();
    }

    /**
     * The reset that ends a successful "Save": every field back to its default
     * except the framework type, which it does not touch, and the error, which
     * becomes `None`; the dialog closes.
     */
    method ResetAfterSave()
      modifies this
      ensures View() == Defaults.(agentFrameworkType := old(agentFrameworkType), error := None)
    {
      agentAddress := "";
      agentName := Some("");
      agentDescription := "";
      inputModes := [];
      outputModes := [];
      streamSupported := false;
      pushNotificationsSupported := false;
      manualInput := false;
      testConnection := true;
      error := None;
      agentDialogOpen := false;
    }
  }
}
