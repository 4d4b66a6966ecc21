/**
 * The network editor: the newline codec behind every multi-line list editor
 * (and the peer-URL editor), the `bound` views of optional text and numbers,
 * and the port-forward list's add and delete buttons, all acting on the
 * configuration the editor's view model holds.
 */
module NetworkEdit {
  import opened Wrappers
  import opened Strings
  import opened NetworkModels

  // ---------------------------------------------------------------------------
  // The multi-line list codec

  /** What the editor shows: the items joined by line feeds. */
  function ListText(items: seq<string>): string {
    Join(items, '\n')
  }

  /** What an edit stores: the text cut at every newline character, empty lines dropped. */
  function ListFromText(text: string): (r: seq<string>)
    ensures forall w :: w in r ==> w != [] && NoneSatisfy(w, IsNewline)
  {
    Split(text, IsNewline)
  }

  /** Round trip: a list of non-empty, single-line items comes back unchanged. */
  lemma ListRoundTrip(items: seq<string>)
    requires forall w :: w in items ==> w != [] && NoneSatisfy(w, IsNewline)
    ensures ListFromText(ListText(items)) == items
  {
    SplitJoin(items, '\n', IsNewline);
  }

  /** Storing normalises once and for all: showing and storing again changes nothing. */
  lemma ListNormalisationIdempotent(text: string)
    ensures ListFromText(ListText(ListFromText(text))) == ListFromText(text)
  {
    SplitJoinSplit(text, '\n', IsNewline);
  }

  /** The configuration lists edited through the codec. */
  datatype ListField =
    | PeerUrls | ProxyCidrs | ListenerUrls | RelayNetworkWhitelist | Routes | ExitNodes | MappedListeners

  function ListOf(c: NetworkConfig, f: ListField): seq<string> {
    match f
    case PeerUrls => c.peer_urls
    case ProxyCidrs => c.proxy_cidrs
    case ListenerUrls => c.listener_urls
    case RelayNetworkWhitelist => c.relay_network_whitelist
    case Routes => c.routes
    case ExitNodes => c.exit_nodes
    case MappedListeners => c.mapped_listeners
  }

  function WithList(c: NetworkConfig, f: ListField, items: seq<string>): NetworkConfig {
    match f
    case PeerUrls => c.(peer_urls := items)
    case ProxyCidrs => c.(proxy_cidrs := items)
    case ListenerUrls => c.(listener_urls := items)
    case RelayNetworkWhitelist => c.(relay_network_whitelist := items)
    case Routes => c.(routes := items)
    case ExitNodes => c.(exit_nodes := items)
    case MappedListeners => c.(mapped_listeners := items)
  }

  /** Writing a list field reads back what was written; writing back what is there changes nothing. */
  lemma ListFieldReadsBack(c: NetworkConfig, f: ListField, items: seq<string>)
    ensures ListOf(WithList(c, f, items), f) == items
    ensures WithList(c, f, ListOf(c, f)) == c
  {
    match f
    case PeerUrls =>
    case ProxyCidrs =>
    case ListenerUrls =>
    case RelayNetworkWhitelist =>
    case Routes =>
    case ExitNodes =>
    case MappedListeners =>
  }

  /** Writing one list field leaves the other lists, the forwards, the host name and the MTU alone. */
  lemma ListFieldFrames(c: NetworkConfig, f: ListField, g: ListField, items: seq<string>)
    ensures g != f ==> ListOf(WithList(c, f, items), g) == ListOf(c, g)
    ensures WithList(c, f, items).port_forwards == c.port_forwards
    ensures WithList(c, f, items).hostname == c.hostname && WithList(c, f, items).mtu == c.mtu
  {
    match f
    case PeerUrls =>
    case ProxyCidrs =>
    case ListenerUrls =>
    case RelayNetworkWhitelist =>
    case Routes =>
    case ExitNodes =>
    case MappedListeners =>
  }

  // ---------------------------------------------------------------------------
  // Optional fields shown as plain values

  /** `String?.bound` read: nil shows as empty text. */
  function BoundString(o: Option<string>): string {
    o.GetOr("")
  }

  /** `String?.bound` write: empty text stores nil. */
  function UnboundString(text: string): Option<string> {
    if text == [] then None else Some(text)
  }

  /**
   * What is typed is what is shown; a stored value reads and writes back to
   * itself, except that a stored empty string becomes nil.
   */
  lemma BoundStringLaws(text: string, o: Option<string>)
    ensures BoundString(UnboundString(text)) == text
    ensures o != Some([]) ==> UnboundString(BoundString(o)) == o
    ensures UnboundString(BoundString(Some([]))).None?
  {
  }

  /** `Int?.bound` read: nil shows as 0. */
  function BoundInt(o: Option<int>): int {
    o.GetOr(0)
  }

  /** `Int?.bound` write: always stores a value. */
  function UnboundInt(v: int): Option<int> {
    Some(v)
  }

  /** What is typed is what is shown; a read-and-write turns nil into 0. */
  lemma BoundIntLaws(v: int, o: Option<int>)
    ensures BoundInt(UnboundInt(v)) == v
    ensures o.Some? ==> UnboundInt(BoundInt(o)) == o
    ensures UnboundInt(BoundInt(None)) == Some(0)
  {
  }

  // ---------------------------------------------------------------------------
  // The edited configuration

  /** The keep-predicate of `removeAll { $0.id == id }` on port forwards. */
  function ForwardIdIsNot(id: Uuid): PortForwardConfig -> bool {
    (p: PortForwardConfig) => p.id != id
  }

  /** Deleting keeps exactly the other forwards, in order. */
  lemma DeleteForwardKeepsOthersInOrder(a: seq<PortForwardConfig>, b: seq<PortForwardConfig>, id: Uuid)
    ensures Filter(a + b, ForwardIdIsNot(id)) == Filter(a, ForwardIdIsNot(id)) + Filter(b, ForwardIdIsNot(id))
    ensures forall p :: p in Filter(a, ForwardIdIsNot(id)) <==> p in a && p.id != id
    ensures (forall p :: p in a ==> p.id != id) ==> Filter(a, ForwardIdIsNot(id)) == a
  {
    FilterConcat(a, b, ForwardIdIsNot(id));
    if forall p :: p in a ==> p.id != id {
      FilterAllKept(a, ForwardIdIsNot(id));
    }
  }

  /** `NetworkEditViewModel`: the configuration being edited. */
  class NetworkEditViewModel {
    var config: NetworkConfig

    /** The given configuration, or the defaults under a fresh instance id. */
    constructor (config: Option<NetworkConfig>, freshInstanceId: string)
      ensures config.Some? ==> this.config == config.value
      ensures config.None? ==> this.config == DefaultConfig(freshInstanceId)
    {
      this.config := config.GetOr(DefaultConfig(freshInstanceId));
    }

    /** The text a list editor shows. */
    function ShownList(f: ListField): string
      reads this
    {
      ListText(ListOf(config, f))
    }

    /** A list editor's `set`: store the edited text's non-empty lines in that list alone. */
    method EditList(f: ListField, text: string)
      modifies this
      ensures config == WithList(old(config), f, ListFromText(text))
      ensures ListOf(config, f) == ListFromText(text)
      ensures forall w :: w in ListOf(config, f) ==> w != [] && NoneSatisfy(w, IsNewline)
      ensures text == ListText(ListOf(old(config), f))
        && (forall w :: w in ListOf(old(config), f) ==> w != [] && NoneSatisfy(w, IsNewline))
        ==> config == old(config)
    {
      if text == ListText(ListOf(config, f)) && forall w :: w in ListOf(config, f) ==> w != [] && NoneSatisfy(w, IsNewline) {
        ListRoundTrip(ListOf(config, f));
        ListFieldReadsBack(config, f, ListOf(config, f));
      }
      config := WithList(config, f, ListFromText(text));
    }

    /** The host-name field's `set`. */
    method EditHostname(text: string)
      modifies this
      ensures config == old(config).(hostname := UnboundString(text))
      ensures BoundString(config.hostname) == text
    {
      config := config.(hostname := UnboundString(text));
    }

    /** The MTU field's `set`. */
    method EditMtu(v: int)
      modifies this
      ensures config == old(config).(mtu := UnboundInt(v))
      ensures BoundInt(config.mtu) == v
    {
      config := config.(mtu := UnboundInt(v));
    }

    /** The trash button: remove every forward with this id. */
    method DeletePortForward(id: Uuid)
      modifies this
      ensures config == old(config).(port_forwards := Filter(old(config).port_forwards, ForwardIdIsNot(id)))
      ensures forall p :: p in config.port_forwards <==> p in old(config).port_forwards && p.id != id
    {
      config := config.(port_forwards := Filter(config.port_forwards, ForwardIdIsNot(id)));
    }

    /** "Add Port Forward": append one default forward; `newId` stands for its fresh `UUID()`. */
    method AddPortForward(newId: Uuid)
      modifies this
      ensures config == old(config).(port_forwards := old(config).port_forwards + [DefaultPortForward(newId)])
    {
      config := config.(port_forwards := config.port_forwards + [DefaultPortForward(newId)]);
    }
  }
}
