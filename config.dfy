/**
  The server's configuration (`Config` in pkg/server/server.go): the
  defaults applied when a server is created (`setBaselineConfig`) and the one
  later mutation, the rewrite of an ephemeral bind address to the address the
  listener actually obtained (`Start`).
 */
module ServerConfig {
  import opened GoStrings

  /** The network used when none is configured. */
  const DefaultNetwork: string := "tcp4"
  /** The bind address used when none is configured: port 8080 on all interfaces. */
  const DefaultAddress: string := ":8080"
  /** A bind address ending in this asks the OS for a free port. */
  const EphemeralSuffix: string := ":0"

  /** The value of a `Config` at one instant. */
  datatype Settings = Settings(
    network: string,
    address: string,
    allowedOrigins: seq<string>,
    tlsEnabled: bool,
    tlsCert: string,
    tlsKey: string)

  /** A configuration that the defaulting step leaves as it is. */
  predicate HasBaseline(c: Settings)
  {
    c.network != "" && c.address != ""
  }

  /**
    What `setBaselineConfig` makes of a configuration: each of the two
    mandatory fields that is empty receives its default; a field that is set
    keeps its value, and no other field changes.
   */
  function Baseline(c: Settings): (r: Settings)
    ensures HasBaseline(r)
    ensures r.network == (if c.network == "" then DefaultNetwork else c.network)
    ensures r.address == (if c.address == "" then DefaultAddress else c.address)
    ensures r.allowedOrigins == c.allowedOrigins && r.tlsEnabled == c.tlsEnabled
    ensures r.tlsCert == c.tlsCert && r.tlsKey == c.tlsKey
  {
    var withNetwork := if c.network == "" then c.(network := DefaultNetwork) else c;
    if withNetwork.address == "" then withNetwork.(address := DefaultAddress) else withNetwork
  }

  /** The configurations that defaulting leaves alone are exactly those with both fields set. */
  lemma BaselineFixesExactly(c: Settings)
    ensures Baseline(c) == c <==> HasBaseline(c)
  {
    if Baseline(c) == c {
      assert HasBaseline(Baseline(c));
    }
  }

  /** Applying the defaults twice is the same as applying them once. */
  lemma BaselineIdempotent(c: Settings)
    ensures Baseline(Baseline(c)) == Baseline(c)
  {
    BaselineFixesExactly(Baseline(c));
  }

  /**
    The bind address after `Start` has listened: an address ending in ":0"
    is replaced by `resolved`, the address the listener reports; any other
    address is kept.
   */
  function EphemeralRewrite(address: string, resolved: string): (r: string)
    ensures HasSuffix(address, EphemeralSuffix) ==> r == resolved
    ensures !HasSuffix(address, EphemeralSuffix) ==> r == address
    ensures !HasSuffix(resolved, EphemeralSuffix) ==> !HasSuffix(r, EphemeralSuffix)
  {
    if HasSuffix(address, EphemeralSuffix) then resolved else address
  }

  /**
    Once the listener has reported a concrete port, a second rewrite changes
    nothing: the address clients are given no longer asks for a free port.
   */
  lemma EphemeralRewriteIdempotent(address: string, resolved: string)
    requires !HasSuffix(resolved, EphemeralSuffix)
    ensures EphemeralRewrite(EphemeralRewrite(address, resolved), resolved)
            == EphemeralRewrite(address, resolved)
  {
  }

  /** The ephemeral test looks only at the last two characters of the address. */
  lemma EphemeralSuffixChars(address: string)
    ensures HasSuffix(address, EphemeralSuffix)
            <==> |address| >= 2 && address[|address| - 2] == ':' && address[|address| - 1] == '0'
  {
    if |address| >= 2 && address[|address| - 2] == ':' && address[|address| - 1] == '0' {
      assert address[|address| - 2..] == [address[|address| - 2], address[|address| - 1]];
    }
  }

  /** Which addresses are rewritten, on the addresses the server is typically given. */
  lemma EphemeralRewriteExamples(resolved: string)
    ensures EphemeralRewrite(":0", resolved) == resolved
    ensures EphemeralRewrite("127.0.0.1:0", resolved) == resolved
    ensures EphemeralRewrite(DefaultAddress, resolved) == DefaultAddress
    ensures EphemeralRewrite("localhost:10", resolved) == "localhost:10"
  {
    EphemeralSuffixChars(":0");
    EphemeralSuffixChars("127.0.0.1:0");
    EphemeralSuffixChars(DefaultAddress);
    EphemeralSuffixChars("localhost:10");
  }

  /** `Config`: a mutable record shared by pointer between its creator and the server. */
  class Config {
    var network: string
    var address: string
    var allowedOrigins: seq<string>
    var tlsEnabled: bool
    var tlsCert: string
    var tlsKey: string

    constructor (network: string, address: string, allowedOrigins: seq<string>,
                 tlsEnabled: bool, tlsCert: string, tlsKey: string)
      ensures Current() == Settings(network, address, allowedOrigins, tlsEnabled, tlsCert, tlsKey)
    {
      this.network := network;
      this.address := address;
      this.allowedOrigins := allowedOrigins;
      this.tlsEnabled := tlsEnabled;
      this.tlsCert := tlsCert;
      this.tlsKey := tlsKey;
    }

    /** The value the fields hold now. */
    function Current(): Settings
      reads this
    {
      Settings(network, address, allowedOrigins, tlsEnabled, tlsCert, tlsKey)
    }
  }

  /** `setBaselineConfig(c)`: fills in the defaults in place. */
  method SetBaselineConfig(c: Config)
    modifies c
    ensures c.Current() == Baseline(old(c.Current()))
  {
    if c.network == "" {
      c.network := DefaultNetwork;
    }
    if c.address == "" {
      c.address := DefaultAddress;
    }
  }
}
