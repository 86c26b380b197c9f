/** The stand-alone whitelist submodule (Submodules/Whitelist/Whitelist.cs): it mirrors
    the plugin's "whitelist enabled" setting onto the server's and back, with no memory
    of what it last pushed. */
module WhitelistSync {
  import opened Common

  const PluginFlagNode: string := "MCAddonPlugin.WhitelistSettings.Enabled"
  const HostFlagNode: string := "MinecraftModule.Game.Whitelist"

  /** `Settings_SettingModified`: the settings map pushed for one change event (pushed even
      when it is empty). */
  function SettingModified(node: string, value: SettingValue): (push: map<string, SettingValue>)
    ensures node == PluginFlagNode && value.Flag? ==> push == map[HostFlagNode := value]
    ensures node == HostFlagNode && value.Flag? ==> push == map[PluginFlagNode := value]
    ensures (node != PluginFlagNode && node != HostFlagNode) || !value.Flag? ==> push == map[]
  {
    if node == PluginFlagNode && value.Flag? then map[HostFlagNode := value]
    else if node == HostFlagNode && value.Flag? then map[PluginFlagNode := value]
    else map[]
  }

  /** The other node of the pair. */
  function Partner(node: string): string
  {
    if node == PluginFlagNode then HostFlagNode else PluginFlagNode
  }

  /** The pushes of `n` successive change events when every push comes back as the next
      change event, starting from a change of `node` to `b`. */
  function EchoChain(node: string, b: bool, n: nat): seq<map<string, SettingValue>>
    decreases n
  {
    if n == 0 then []
    else [SettingModified(node, Flag(b))] + EchoChain(Partner(node), b, n - 1)
  }

  /** Without a remembered value nothing stops the echo: every push in the chain, however
      long, is a single non-empty update of the other node, alternating between the two. */
  lemma {:induction false} EchoNeverSettles(node: string, b: bool, n: nat)
    requires node == PluginFlagNode || node == HostFlagNode
    decreases n
    ensures |EchoChain(node, b, n)| == n
    ensures forall k :: 0 <= k < n ==>
      EchoChain(node, b, n)[k] == map[(if k % 2 == 0 then Partner(node) else node) := Flag(b)]
  {
    if n > 0 {
      EchoNeverSettles(Partner(node), b, n - 1);
      assert Partner(Partner(node)) == node;
      var chain := EchoChain(node, b, n);
      forall k | 0 <= k < n
        ensures chain[k] == map[(if k % 2 == 0 then Partner(node) else node) := Flag(b)]
      {
        if k > 0 {
          assert chain[k] == EchoChain(Partner(node), b, n - 1)[k - 1];
        }
      }
    }
  }
}
