/**
 * Graph state as the workflow engine keeps it: a dictionary from channel name to value, where every
 * channel has a reducer that decides how a node's update is merged into the current value.
 */
module Channels {
  import opened Common
  import opened Messages

  /** The kinds of value the core's state channels hold. `Null` is Python's `None`. */
  datatype Value =
    | Str(s: string)
    | Int(i: int)
    | Strs(items: seq<string>)
    | Msgs(msgs: seq<Message>)
    | Null

  /** A state, or a node's update: a dictionary keyed by channel name. */
  type Dict = map<string, Value>

  /**
   * How a channel merges an update: `LastValue` for a field declared without a reducer,
   * `ListAdd` for `Annotated[list, operator.add]`, `AddMessages` for `Annotated[..., add_messages]`.
   */
  datatype Reducer = LastValue | ListAdd | AddMessages

  /** A state schema: its channels and their reducers. */
  type Schema = map<string, Reducer>

  /**
   * Merges one update value into a channel's current value (`None` when the channel was never written,
   * which a list channel treats as the empty list). Both list reducers append in order.
   * Values of different kinds are never combined by the core; the model then keeps the update.
   */
  function Merge(reducer: Reducer, current: Option<Value>, update: Value): (r: Value)
    ensures reducer == LastValue ==> r == update
    ensures current.None? ==> r == update
  {
    match (reducer, current, update)
    case (LastValue, _, _) => update
    case (ListAdd, Some(Strs(a)), Strs(b)) => Strs(a + b)
    case (ListAdd, Some(Msgs(a)), Msgs(b)) => Msgs(a + b)
    case (AddMessages, Some(Msgs(a)), Msgs(b)) => Msgs(a + b)
    case _ => update
  }

  /**
   * Applies a node's update to a state. Keys of the update that are not channels of the schema are
   * dropped; channels the update does not mention keep their value.
   */
  function Apply(schema: Schema, state: Dict, update: Dict): (r: Dict)
    ensures r.Keys == state.Keys + (update.Keys * schema.Keys)
    ensures forall k :: k in state && (k !in update || k !in schema) ==> r[k] == state[k]
    ensures forall k :: k in update && k in schema && schema[k] == LastValue ==> r[k] == update[k]
    ensures forall k :: k in update && k !in schema ==> (k in r <==> k in state)
  {
    map k | k in state.Keys + (update.Keys * schema.Keys) ::
      if k in update && k in schema then
        Merge(schema[k], if k in state then Some(state[k]) else None, update[k])
      else state[k]
  }

  /** Reads a message-list channel, with the empty list when it is unwritten or holds something else. */
  function GetMsgs(d: Dict, key: string): seq<Message> {
    if key in d && d[key].Msgs? then d[key].msgs else []
  }

  /** Reads a string-list channel, with the empty list when it is unwritten or holds something else. */
  function GetStrs(d: Dict, key: string): seq<string> {
    if key in d && d[key].Strs? then d[key].items else []
  }

  /** Reads an integer channel, with a caller-supplied default when it is unwritten or holds something else. */
  function GetInt(d: Dict, key: string, default: int): int {
    if key in d && d[key].Int? then d[key].i else default
  }

  /** A channel is written and holds a message list, so indexing the state by that key does not raise. */
  predicate HasMsgs(d: Dict, key: string) {
    key in d && d[key].Msgs?
  }

  /** A channel holds a message list or is unwritten, so a read with an empty-list default sees all of it. */
  predicate HoldsMsgs(d: Dict, key: string) {
    key in d ==> d[key].Msgs?
  }

  /** A channel holds a string list or is unwritten. */
  predicate HoldsStrs(d: Dict, key: string) {
    key in d ==> d[key].Strs?
  }

  /** An append-only message channel grows by exactly the update's messages, in order. */
  lemma ApplyAppendsMessages(schema: Schema, state: Dict, update: Dict, key: string, added: seq<Message>)
    requires key in schema && schema[key] in {ListAdd, AddMessages}
    requires HoldsMsgs(state, key)
    requires key in update && update[key] == Msgs(added)
    ensures GetMsgs(Apply(schema, state, update), key) == GetMsgs(state, key) + added
    ensures HoldsMsgs(Apply(schema, state, update), key)
  {
  }

  /** A list channel grows by exactly the update's entries, in order. */
  lemma ApplyAppendsStrings(schema: Schema, state: Dict, update: Dict, key: string, added: seq<string>)
    requires key in schema && schema[key] == ListAdd
    requires HoldsStrs(state, key)
    requires key in update && update[key] == Strs(added)
    ensures GetStrs(Apply(schema, state, update), key) == GetStrs(state, key) + added
    ensures HoldsStrs(Apply(schema, state, update), key)
  {
  }

  /** A channel the update does not mention reads the same afterwards. */
  lemma ApplyKeepsUntouched(schema: Schema, state: Dict, update: Dict, key: string)
    requires key !in update
    ensures key in Apply(schema, state, update) <==> key in state
    ensures GetMsgs(Apply(schema, state, update), key) == GetMsgs(state, key)
    ensures GetStrs(Apply(schema, state, update), key) == GetStrs(state, key)
    ensures forall d :: GetInt(Apply(schema, state, update), key, d) == GetInt(state, key, d)
  {
  }
}
