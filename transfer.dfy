// src/transfer.ts: the envelope that marks a value for move rather than copy,
// and the structural test that recognises it.
module Transfer {
  import opened JsValues

  /**
   * The module-private `Symbol('Transfer')` used as the marker key: a unique
   * symbol, so no key built elsewhere (a string or a registered symbol, whatever
   * its description) can equal it.
   */
  const MarkerKey: Key := UniqueSym(0)

  /** `transfer(value, list)`: an absent list is `Undefined`. */
  function MakeTransfer(value: Value, list: Value): (t: Value)
    ensures t.Obj?
    ensures MarkerKey in t.props && t.props[MarkerKey] == Bool(true)
    ensures StrKey("value") in t.props && t.props[StrKey("value")] == value
    ensures StrKey("list") in t.props && t.props[StrKey("list")] == list
    ensures t.props.Keys == {MarkerKey, StrKey("value"), StrKey("list")}
  {
    Obj(map[MarkerKey := Bool(true), StrKey("value") := value, StrKey("list") := list])
  }

  /** `!!x && typeof x === 'object' && Transfer in x`: only plain objects holding the marker key pass. */
  predicate IsTransfer(x: Value): (b: bool)
    ensures b <==> x.Obj? && MarkerKey in x.props
  {
    Truthy(x) && TypeofObject(x) && HasKey(x, MarkerKey)
  }

  /** Every envelope `transfer` builds is recognised. */
  lemma TransferIsRecognised(value: Value, list: Value)
    ensures IsTransfer(MakeTransfer(value, list))
  {
  }

  /** Falsy values and values whose `typeof` is not 'object' are never envelopes. */
  lemma NonObjectsAreNotTransfers(x: Value)
    requires !Truthy(x) || !TypeofObject(x)
    ensures !IsTransfer(x)
  {
  }

  /** An object is an envelope exactly when it has the marker key, whatever that key holds. */
  lemma RecognitionByMarkerOnly(props: map<Key, Value>, marker: Value)
    ensures IsTransfer(Obj(props)) <==> MarkerKey in props
    ensures IsTransfer(Obj(props[MarkerKey := marker]))
  {
  }
}
