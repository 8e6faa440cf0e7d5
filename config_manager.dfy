/** The settings page's configuration manager (src/renderer/js/configManager.js):
    it collects the form, merges a partial configuration into the one the main
    process holds, sends the result through the bridge, and tells its
    listeners. The configuration read back from the main process and the main
    process's answer are inputs. */
module ConfigManager {
  import opened Values
  import opened Strings
  import ConfigStore
  import MainPreload

  /** `fields`: the text inputs of the form. */
  const TextFields: seq<string> := ["username", "password", "callsign", "software"]
  /** `configFields`: the check boxes of the form. */
  const CheckFields: seq<string> := ["startMinimized", "startInTray", "sidebarCollapsed"]

  /** An input element of the form: its text and whether it is checked. */
  datatype Input = Input(value: string, checked: bool)

  /** The text a text input contributes: trimmed, and upper-cased for the call sign. */
  function FieldText(field: string, value: string): (r: string)
    ensures field == "callsign" ==> r == Upper(Trim(value)) && NoLowerAscii(r)
    ensures field != "callsign" ==> r == Trim(value) && Trimmed(r)
  {
    if field == "callsign" then Upper(Trim(value)) else Trim(value)
  }

  /** A text input left out of the form data: the password field still showing the mask. */
  predicate Placeholder(field: string, value: string) {
    field == "password" && value == ConfigStore.Mask
  }

  /** The form data the text inputs `fields` contribute. */
  function TextData(inputs: map<string, Input>, fields: seq<string>): map<string, Value> {
    map k | k in inputs && k in fields && !Placeholder(k, inputs[k].value) :: Str(FieldText(k, inputs[k].value))
  }

  /** The form data the check boxes `fields` contribute. */
  function CheckData(inputs: map<string, Input>, fields: seq<string>): map<string, Value> {
    map k | k in inputs && k in fields :: Bool(inputs[k].checked)
  }

  /** The form data `handleFormSubmit` collects from the inputs present on the page. */
  function FormData(inputs: map<string, Input>): (r: map<string, Value>)
    ensures forall k :: k in r <==>
              k in inputs && ((k in TextFields && !Placeholder(k, inputs[k].value)) || k in CheckFields)
    ensures forall k :: k in r && k in TextFields ==> r[k] == Str(FieldText(k, inputs[k].value))
    ensures forall k :: k in r && k in CheckFields ==> r[k] == Bool(inputs[k].checked)
  {
    assert forall k :: k in CheckFields ==> k !in TextFields;
    TextData(inputs, TextFields) + CheckData(inputs, CheckFields)
  }

  /** The first `forEach` of `handleFormSubmit`: the text inputs, in order. */
  method CollectText(inputs: map<string, Input>, fields: seq<string>) returns (data: map<string, Value>)
    ensures data == TextData(inputs, fields)
  {
    data := map[];
    for i := 0 to |fields|
      invariant data == TextData(inputs, fields[..i])
    {
      var field := fields[i];
      assert fields[..i + 1] == fields[..i] + [field];
      if field in inputs && !Placeholder(field, inputs[field].value) {
        data := data[field := Str(FieldText(field, inputs[field].value))];
      }
    }
    assert fields[..|fields|] == fields;
  }

  /** The second `forEach` of `handleFormSubmit`: the check boxes, in order. */
  method CollectChecks(inputs: map<string, Input>, fields: seq<string>, data0: map<string, Value>)
    returns (data: map<string, Value>)
    ensures data == data0 + CheckData(inputs, fields)
  {
    data := data0;
    for i := 0 to |fields|
      invariant data == data0 + CheckData(inputs, fields[..i])
    {
      var field := fields[i];
      assert fields[..i + 1] == fields[..i] + [field];
      if field in inputs {
        data := data[field := Bool(inputs[field].checked)];
      }
    }
    assert fields[..|fields|] == fields;
  }

  /** `handleFormSubmit`'s collection of the form data: the text inputs first,
      then the check boxes, each only when the page has it. */
  method CollectFormData(inputs: map<string, Input>) returns (formData: map<string, Value>)
    ensures formData == FormData(inputs)
  {
    formData := CollectText(inputs, TextFields);
    formData := CollectChecks(inputs, CheckFields, formData);
  }

  /** A password field still showing the mask never reaches the form data,
      and the call sign is sent upper-cased and without surrounding spaces. */
  lemma FormDataClean(inputs: map<string, Input>)
    ensures "password" in inputs && inputs["password"].value == ConfigStore.Mask ==> "password" !in FormData(inputs)
    ensures "callsign" in inputs ==>
              "callsign" in FormData(inputs) && FormData(inputs)["callsign"].Str?
              && Trimmed(FormData(inputs)["callsign"].s) && NoLowerAscii(FormData(inputs)["callsign"].s)
  {
    if "callsign" in inputs {
      var s := Trim(inputs["callsign"].value);
      assert Upper(s) == FieldText("callsign", inputs["callsign"].value);
      UpperKeepsTrimmed(s);
    }
  }

  /** Upper-casing keeps a trimmed string trimmed: it maps white space to itself. */
  lemma UpperKeepsTrimmed(s: string)
    requires Trimmed(s)
    ensures Trimmed(Upper(s))
  {
    if s != [] {
      assert !('a' <= s[0] <= 'z') || !IsSpace(UpperChar(s[0]));
    }
  }

  /** A key of the partial configuration the merge ignores: the masked password. */
  predicate Skipped(k: string, v: Value) {
    k == "password" && v == Str(ConfigStore.Mask)
  }

  /** The keys whose value the partial configuration changes. */
  function Changes(current: map<string, Value>, partial: map<string, Value>): (r: set<string>)
    ensures forall k :: k in r <==> k in partial && !Skipped(k, partial[k]) && Lookup(current, k) != Some(partial[k])
  {
    set k | k in partial && !Skipped(k, partial[k]) && Lookup(current, k) != Some(partial[k])
  }

  /** The configuration with the changed keys taken from the partial one. */
  function Merge(current: map<string, Value>, partial: map<string, Value>): (r: map<string, Value>)
    ensures r.Keys == current.Keys + Changes(current, partial)
    ensures forall k :: k in partial && !Skipped(k, partial[k]) ==> r[k] == partial[k]
    ensures forall k :: k in current && (k !in partial || Skipped(k, partial[k])) ==> r[k] == current[k]
  {
    current + map k | k in Changes(current, partial) :: partial[k]
  }

  /** Merging is the same as overwriting with every key that is not skipped. */
  lemma {:induction false} MergeIsOverwrite(current: map<string, Value>, partial: map<string, Value>)
    ensures Merge(current, partial) == current + map k | k in partial && !Skipped(k, partial[k]) :: partial[k]
  {
    var over := current + map k | k in partial && !Skipped(k, partial[k]) :: partial[k];
    assert Merge(current, partial).Keys == over.Keys by {
      forall k | k in over
        ensures k in Merge(current, partial)
      {
        if k !in current {
          assert k in Changes(current, partial);
        }
      }
    }
  }

  /** Merging a second time changes nothing. */
  lemma MergeIdempotent(current: map<string, Value>, partial: map<string, Value>)
    ensures Changes(Merge(current, partial), partial) == {}
    ensures Merge(Merge(current, partial), partial) == Merge(current, partial)
  {
    var m := Merge(current, partial);
    assert forall k :: k in partial && !Skipped(k, partial[k]) ==> Lookup(m, k) == Some(partial[k]);
  }

  /** The merge of `Object.entries(partialConfig)`: the merged table, and
      whether any key changed. */
  method MergeChanges(current: map<string, Value>, partial: map<string, Value>)
    returns (configToSave: map<string, Value>, hasChanges: bool)
    ensures configToSave == Merge(current, partial)
    ensures hasChanges <==> Changes(current, partial) != {}
  {
    configToSave := current;
    hasChanges := false;
    var todo := partial.Keys;
    ghost var changes := Changes(current, partial);
    while todo != {}
      invariant todo <= partial.Keys
      invariant configToSave.Keys == current.Keys + (changes - todo)
      invariant forall k :: k in configToSave ==>
                  configToSave[k] == if k in changes && k !in todo then partial[k] else current[k]
      invariant hasChanges <==> changes - todo != {}
      decreases todo
    {
      var key :| key in todo;
      var value := partial[key];
      assert Lookup(configToSave, key) == Lookup(current, key);
      if !Skipped(key, value) && Lookup(configToSave, key) != Some(value) {
        configToSave := configToSave[key := value];
        hasChanges := true;
      }
      todo := todo - {key};
    }
    assert configToSave.Keys == Merge(current, partial).Keys;
  }

  /** A listener called with a configuration. */
  datatype Delivery = Delivery(listener: nat, config: map<string, Value>)

  /** What `notifyConfigChange(config)` delivers: one call per listener, in
      registration order; a listener that throws does not stop the others. */
  function Deliveries(listeners: seq<nat>, config: map<string, Value>): (r: seq<Delivery>)
    ensures |r| == |listeners|
    ensures forall i :: 0 <= i < |r| ==> r[i] == Delivery(listeners[i], config)
  {
    seq(|listeners|, i requires 0 <= i < |listeners| => Delivery(listeners[i], config))
  }

  /** How `saveConfig(partialConfig)` ends when it gets past its guards. */
  datatype SaveResult = SaveResult(ok: bool, saved: Option<map<string, Value>>)

  /** `saveConfig(partialConfig)` past the busy guard: `partial` is the
      argument (`None` for null or a non-object), `current` the configuration
      read back, `reply` the main process's answer; `saved` is the table
      recorded as last saved and given to the listeners. The bridge receives
      a copy of the merged table (the renderer is context-isolated), so a
      password it strips from what it sends stays in what is recorded. */
  function SaveFor(partial: Option<map<string, Value>>, current: map<string, Value>,
                   reply: Option<SaveReply>): (r: SaveResult)
    ensures partial.None? || partial.value == map[] ==> r == SaveResult(false, None)
    ensures partial.Some? && Changes(current, partial.value) == {} ==> r == SaveResult(partial.value != map[], None)
    ensures r.saved.Some? <==> r.ok && partial.Some? && Changes(current, partial.value) != {}
    ensures r.saved.Some? ==>
              r.saved == Some(Merge(current, partial.value))
              && MainPreload.SaveFor(Some(Merge(current, partial.value)), reply).outcome.Resolved?
    ensures partial.Some? && Changes(current, partial.value) != {} ==>
              (r.ok <==> MainPreload.SaveFor(Some(Merge(current, partial.value)), reply).outcome.Resolved?)
  {
    if partial.None? || partial.value == map[] then SaveResult(false, None)
    else if Changes(current, partial.value) == {} then SaveResult(true, None)
    else
      var call := MainPreload.SaveFor(Some(Merge(current, partial.value)), reply);
      if call.outcome.Resolved? then SaveResult(true, Some(Merge(current, partial.value)))
      else SaveResult(false, None)
  }

  /** A masked password read back and left alone is what a successful save
      records and hands to the listeners, although the bridge does not send it. */
  lemma {:induction false} RecordedKeepsMask(partial: map<string, Value>, current: map<string, Value>,
                                            reply: Option<SaveReply>)
    requires "password" in current && current["password"] == Str(ConfigStore.Mask)
    requires "password" !in partial || Skipped("password", partial["password"])
    requires SaveFor(Some(partial), current, reply).saved.Some?
    ensures SaveFor(Some(partial), current, reply).saved.value["password"] == Str(ConfigStore.Mask)
    ensures "password" !in MainPreload.SaveFor(Some(Merge(current, partial)), reply).sent.value
  {
    MaskedPasswordNeverSent(partial, current, reply);
  }

  /** A save that the main process refuses, or that the bridge stops, reports failure. */
  lemma RefusalReported(partial: map<string, Value>, current: map<string, Value>, error: string)
    requires partial != map[] && Changes(current, partial) != {}
    ensures SaveFor(Some(partial), current, Some(Refused(error))) == SaveResult(false, None)
    ensures SaveFor(Some(partial), current, None) == SaveResult(false, None)
  {
  }

  /** A merged configuration without a user name never leaves the renderer,
      whatever the main process would answer. */
  lemma NoUserNoSave(partial: map<string, Value>, current: map<string, Value>, reply: Option<SaveReply>)
    requires partial != map[] && Changes(current, partial) != {}
    requires !TruthyAt(Merge(current, partial), "username")
    ensures !SaveFor(Some(partial), current, reply).ok
  {
  }

  /** The masked password the page reads back is never sent: the merge keeps
      it, and the bridge strips it. */
  lemma {:induction false} MaskedPasswordNeverSent(partial: map<string, Value>, current: map<string, Value>,
                                                  reply: Option<SaveReply>)
    requires "password" in current && current["password"] == Str(ConfigStore.Mask)
    requires "password" !in partial || Skipped("password", partial["password"])
    requires partial != map[] && Changes(current, partial) != {}
    requires MainPreload.SaveFor(Some(Merge(current, partial)), reply).sent.Some?
    ensures "password" !in MainPreload.SaveFor(Some(Merge(current, partial)), reply).sent.value
  {
    var merged := Merge(current, partial);
    assert merged["password"] == Str(ConfigStore.Mask);
    assert MainPreload.KeepsPassword(merged);
  }

  class Manager {
    /** `configChangeListeners`, by identifier. */
    var listeners: seq<nat>
    var isSaving: bool
    var lastSavedConfig: Option<map<string, Value>>
    /** The listener calls made so far. */
    var deliveries: seq<Delivery>

    constructor ()
      ensures listeners == [] && !isSaving && lastSavedConfig.None? && deliveries == []
    {
      listeners := [];
      isSaving := false;
      lastSavedConfig := None;
      deliveries := [];
    }

    /** `onConfigChange(callback)`: registers a function and nothing else, and returns the manager. */
    method OnConfigChange(callback: Callback) returns (self: Manager)
      modifies this`listeners
      ensures self == this
      ensures listeners == old(listeners) + (if callback.Function? then [callback.id] else [])
    {
      if callback.Function? {
        listeners := listeners + [callback.id];
      }
      self := this;
    }

    /** `notifyConfigChange(config)`. */
    method NotifyConfigChange(config: map<string, Value>)
      modifies this`deliveries
      ensures deliveries == old(deliveries) + Deliveries(listeners, config)
    {
      for i := 0 to |listeners|
        invariant deliveries == old(deliveries) + Deliveries(listeners[..i], config)
      {
        deliveries := deliveries + [Delivery(listeners[i], config)];
      }
      assert listeners[..|listeners|] == listeners;
    }

    /** `saveConfig(partialConfig)`: `partial` is the argument (`None` for
        null or a non-object), `current` what `getConfig()` gives, and `reply`
        the main process's answer to the bridge. */
    method SaveConfig(partial: Option<map<string, Value>>, current: map<string, Value>, reply: Option<SaveReply>)
      returns (ok: bool)
      modifies this`isSaving, this`lastSavedConfig, this`deliveries
      ensures (partial.None? || partial.value == map[] || old(isSaving)) ==>
                !ok && isSaving == old(isSaving) && lastSavedConfig == old(lastSavedConfig)
                && deliveries == old(deliveries)
      ensures !(partial.None? || partial.value == map[] || old(isSaving)) ==>
                var r := SaveFor(partial, current, reply);
                ok == r.ok && !isSaving
                && (r.saved.Some? ==> lastSavedConfig == r.saved
                                      && deliveries == old(deliveries) + Deliveries(listeners, r.saved.value))
                && (r.saved.None? ==> lastSavedConfig == old(lastSavedConfig) && deliveries == old(deliveries))
    {
      if partial.None? || partial.value == map[] {
        return false;
      }
      if isSaving {
        return false;
      }
      isSaving := true;
      var configToSave, hasChanges := MergeChanges(current, partial.value);
      if !hasChanges {
        isSaving := false;
        return true;
      }
      // The bridge works on its own copy of the argument.
      var request := new JsObject(configToSave);
      var call := MainPreload.SaveConfig(request, reply);
      if call.outcome.Resolved? {
        lastSavedConfig := Some(configToSave);
        NotifyConfigChange(configToSave);
        ok := true;
      } else {
        ok := false;
      }
      isSaving := false;
    }
  }
}
