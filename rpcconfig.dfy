/** The table of RPC endpoints of the main chain and the branch chains a node talks to
    (CellRPCConfig and CellBranchChainMan in src/chain/branchchain.cpp). */
module RpcConfigs {
  import opened Wrappers
  import opened Transactions

  /** CellRPCConfig. */
  datatype RpcConfig = RpcConfig(ip: string, port: int, user: string, password: string, wallet: string)

  /** A default-constructed CellRPCConfig. */
  const Unset: RpcConfig := RpcConfig([], 0, [], [], [])

  /** CellRPCConfig::Reset: every field cleared. */
  function Reset(cfg: RpcConfig): (r: RpcConfig)
    ensures r.ip == [] && r.port == 0 && r.user == [] && r.password == [] && r.wallet == []
  {
    RpcConfig([], 0, [], [], [])
  }

  /** CellRPCConfig::IsValid: an address and a non-zero port. */
  predicate IsValid(cfg: RpcConfig)
  {
    cfg.ip != [] && cfg.port != 0
  }

  /** A reset configuration is never valid. */
  lemma ResetIsInvalid(cfg: RpcConfig)
    ensures !IsValid(Reset(cfg))
  {
  }

  /** A parsed JSON value (UniValue); text parsing itself is not part of this model. */
  datatype JVal = JNull | JStr(s: string) | JNum(n: int) | JObj(fields: map<string, JVal>) | JOther

  /** find_value: a member of an object, null when absent or when the value is no object. */
  function FindValue(v: JVal, key: string): JVal
  {
    if v.JObj? && key in v.fields then v.fields[key] else JNull
  }

  /** The outcome of ParseRpcConfig: the filled-in configuration and branch id, a false
      return, or the exception get_str/get_int throw on a value of the wrong type. */
  datatype ParseOutcome = Parsed(cfg: RpcConfig, branchId: string) | NotParsed | Threw

  predicate IsInt32(n: int) { -0x8000_0000 <= n < 0x8000_0000 }

  /** get_str / get_int: the value, or None where UniValue throws. */
  function GetStr(v: JVal): Option<string> { if v.JStr? then Some(v.s) else None }
  function GetInt(v: JVal): Option<int> { if v.JNum? && IsInt32(v.n) then Some(v.n) else None }

  /** CellBranchChainMan::ParseRpcConfig. `json` is the result of uv.read (None when the text
      is not JSON); `cfg` is the configuration passed in, whose optional fields stay as they
      are when the JSON leaves them out. */
  function ParseRpcConfig(json: Option<JVal>, cfg: RpcConfig): (r: ParseOutcome)
    ensures r.Parsed? ==> r.cfg.port != 0 && IsInt32(r.cfg.port)
  {
    if json.None? then NotParsed
    else
      var uv := json.value;
      var idVal := FindValue(uv, "branchid");
      if !idVal.JNull? && GetStr(idVal).None? then Threw
      else
        var branchId := if idVal.JNull? then [] else GetStr(idVal).value;
        var ipVal := FindValue(uv, "ip");
        if ipVal.JNull? then NotParsed
        else if GetStr(ipVal).None? then Threw
        else
          var portVal := FindValue(uv, "port");
          if portVal.JNull? then NotParsed
          else if GetInt(portVal).None? then Threw
          else if GetInt(portVal).value == 0 then NotParsed
          else
            var userVal := FindValue(uv, "usrname");
            var passVal := FindValue(uv, "password");
            var walletVal := FindValue(uv, "wallet");
            if !userVal.JNull? && GetStr(userVal).None? then Threw
            else if !passVal.JNull? && GetStr(passVal).None? then Threw
            else if !walletVal.JNull? && GetStr(walletVal).None? then Threw
            else
              Parsed(RpcConfig(GetStr(ipVal).value,
                               GetInt(portVal).value,
                               if userVal.JNull? then cfg.user else GetStr(userVal).value,
                               if passVal.JNull? then cfg.password else GetStr(passVal).value,
                               if walletVal.JNull? then cfg.wallet else GetStr(walletVal).value),
                     branchId)
  }

  /** The JSON text a configuration is written as (-mainchaincfg / -branchcfg). */
  function ConfigJson(cfg: RpcConfig, branchId: string): JVal
  {
    JObj(map["branchid" := JStr(branchId), "ip" := JStr(cfg.ip), "port" := JNum(cfg.port),
             "usrname" := JStr(cfg.user), "password" := JStr(cfg.password), "wallet" := JStr(cfg.wallet)])
  }

  /** Round trip: a configuration with a 32-bit non-zero port written out as JSON parses back
      to itself and its branch id, whatever configuration it is parsed into. */
  lemma ParseRpcConfigRoundTrip(cfg: RpcConfig, branchId: string, into: RpcConfig)
    requires cfg.port != 0 && IsInt32(cfg.port)
    ensures ParseRpcConfig(Some(ConfigJson(cfg, branchId)), into) == Parsed(cfg, branchId)
  {
    var uv := ConfigJson(cfg, branchId);
    assert FindValue(uv, "branchid") == JStr(branchId);
    assert FindValue(uv, "ip") == JStr(cfg.ip);
    assert FindValue(uv, "port") == JNum(cfg.port);
    assert FindValue(uv, "usrname") == JStr(cfg.user);
    assert FindValue(uv, "password") == JStr(cfg.password);
    assert FindValue(uv, "wallet") == JStr(cfg.wallet);
  }

  /** Both required fields must be present: without "ip" or "port" nothing is parsed. */
  lemma ParseNeedsIpAndPort(fields: map<string, JVal>, cfg: RpcConfig)
    requires "ip" !in fields || "port" !in fields
    ensures !ParseRpcConfig(Some(JObj(fields)), cfg).Parsed?
  {
  }

  /** What Init does with one -branchcfg value (or -mainchaincfg, stored under `name`). */
  function Register(m: map<string, RpcConfig>, r: ParseOutcome, name: string): map<string, RpcConfig>
  {
    if r.Parsed? && IsValid(r.cfg) then m[name := r.cfg] else m
  }

  /** The table after the -branchcfg values `cfgs`, and whether a parse threw (Init stops
      there, with what it stored so far). */
  function RegisterBranches(m: map<string, RpcConfig>, cfgs: seq<string>, read: string -> Option<JVal>): (map<string, RpcConfig>, bool)
    decreases |cfgs|
  {
    if cfgs == [] then (m, false)
    else
      var r := ParseRpcConfig(read(cfgs[0]), Unset);
      if r.Threw? then (m, true)
      else RegisterBranches(Register(m, r, if r.Parsed? then r.branchId else []), cfgs[1..], read)
  }

  /** The table after Init. */
  function InitTable(m: map<string, RpcConfig>, mainCfg: string, branchCfgs: seq<string>, read: string -> Option<JVal>): (map<string, RpcConfig>, bool)
  {
    if mainCfg == [] then RegisterBranches(m, branchCfgs, read)
    else
      var r := ParseRpcConfig(read(mainCfg), Unset);
      if r.Threw? then (m, true)
      else RegisterBranches(Register(m, r, MAIN), branchCfgs, read)
  }

  predicate AllValid(m: map<string, RpcConfig>)
  {
    forall k :: k in m ==> IsValid(m[k])
  }

  /** Init only ever stores valid configurations and never removes one. */
  lemma {:induction false} RegisterBranchesKeepsValid(m: map<string, RpcConfig>, cfgs: seq<string>, read: string -> Option<JVal>)
    ensures AllValid(m) ==> AllValid(RegisterBranches(m, cfgs, read).0)
    ensures m.Keys <= RegisterBranches(m, cfgs, read).0.Keys
    decreases |cfgs|
  {
    if cfgs != [] {
      var r := ParseRpcConfig(read(cfgs[0]), Unset);
      if !r.Threw? {
        RegisterBranchesKeepsValid(Register(m, r, if r.Parsed? then r.branchId else []), cfgs[1..], read);
      }
    }
  }

  lemma InitKeepsValid(m: map<string, RpcConfig>, mainCfg: string, branchCfgs: seq<string>, read: string -> Option<JVal>)
    ensures AllValid(m) ==> AllValid(InitTable(m, mainCfg, branchCfgs, read).0)
    ensures m.Keys <= InitTable(m, mainCfg, branchCfgs, read).0.Keys
  {
    if mainCfg == [] {
      RegisterBranchesKeepsValid(m, branchCfgs, read);
    } else {
      var r := ParseRpcConfig(read(mainCfg), Unset);
      if !r.Threw? {
        RegisterBranchesKeepsValid(Register(m, r, MAIN), branchCfgs, read);
      }
    }
  }

  /** An entry that no -branchcfg value names (such as the main chain's, under MAIN) keeps
      its configuration through the branch configurations. */
  lemma {:induction false} RegisterBranchesKeepsOthers(m: map<string, RpcConfig>, cfgs: seq<string>, read: string -> Option<JVal>, key: string)
    requires key in m
    requires forall i :: 0 <= i < |cfgs| ==> var r := ParseRpcConfig(read(cfgs[i]), Unset); !(r.Parsed? && r.branchId == key)
    ensures key in RegisterBranches(m, cfgs, read).0 && RegisterBranches(m, cfgs, read).0[key] == m[key]
    decreases |cfgs|
  {
    if cfgs != [] {
      var r := ParseRpcConfig(read(cfgs[0]), Unset);
      if !r.Threw? {
        assert forall i :: 0 <= i < |cfgs[1..]| ==> cfgs[1..][i] == cfgs[i + 1];
        RegisterBranchesKeepsOthers(Register(m, r, if r.Parsed? then r.branchId else []), cfgs[1..], read, key);
      }
    }
  }

  /** CellBranchChainMan: the RPC configuration of each chain by branch id (MAIN for the main chain). */
  class BranchChainMan {
    var mapRpcConfig: map<string, RpcConfig>

    constructor()
      ensures mapRpcConfig == map[]
    {
      mapRpcConfig := map[];
    }

    /** Init: -mainchaincfg (when given) under MAIN, then each -branchcfg under its branch id;
        only configurations that parse and are valid are stored. threw reports the exception
        of a wrongly typed JSON field, which leaves Init early. */
    method Init(mainCfg: string, branchCfgs: seq<string>, read: string -> Option<JVal>) returns (threw: bool)
      modifies this
      ensures (mapRpcConfig, threw) == InitTable(old(mapRpcConfig), mainCfg, branchCfgs, read)
    {
      threw := false;
      if mainCfg != [] {
        var rpccfg := Unset;
        var r := ParseRpcConfig(read(mainCfg), rpccfg);
        if r.Threw? {
          return true;
        }
        if r.Parsed? && IsValid(r.cfg) {
          mapRpcConfig := mapRpcConfig[MAIN := r.cfg];
        }
      }
      ghost var afterMain := mapRpcConfig;
      for i := 0 to |branchCfgs|
        invariant RegisterBranches(mapRpcConfig, branchCfgs[i..], read) == RegisterBranches(afterMain, branchCfgs, read)
      {
        assert branchCfgs[i..][0] == branchCfgs[i] && branchCfgs[i..][1..] == branchCfgs[i + 1..];
        var rpccfg := Unset;
        var r := ParseRpcConfig(read(branchCfgs[i]), rpccfg);
        if r.Threw? {
          return true;
        }
        if r.Parsed? && IsValid(r.cfg) {
          mapRpcConfig := mapRpcConfig[r.branchId := r.cfg];
        }
      }
      assert branchCfgs[|branchCfgs|..] == [];
    }

    /** GetRpcConfig: found exactly when the name is in the table, with its configuration. */
    method GetRpcConfig(name: string) returns (found: bool, cfg: RpcConfig)
      ensures found <==> name in mapRpcConfig
      ensures found ==> cfg == mapRpcConfig[name]
    {
      if name !in mapRpcConfig {
        return false, Unset;
      }
      return true, mapRpcConfig[name];
    }

    /** CheckRpcConfig: only the port is looked at. */
    method CheckRpcConfig(cfg: RpcConfig) returns (ok: bool)
      ensures ok <==> cfg.port != 0
      ensures IsValid(cfg) ==> ok
    {
      return cfg.port != 0;
    }

    /** ReplaceRpcConfig: store under the name, replacing any previous entry, with no check. */
    method ReplaceRpcConfig(name: string, cfg: RpcConfig)
      modifies this
      ensures mapRpcConfig == old(mapRpcConfig)[name := cfg]
    {
      mapRpcConfig := mapRpcConfig[name := cfg];
    }
  }

  /** After a replace the lookup finds the new configuration, and every other name still
      finds what it found before. */
  lemma ReplaceThenGet(m: map<string, RpcConfig>, name: string, cfg: RpcConfig, other: string)
    ensures name in m[name := cfg] && m[name := cfg][name] == cfg
    ensures other != name ==> (other in m[name := cfg] <==> other in m)
    ensures other != name && other in m ==> m[name := cfg][other] == m[other]
  {
  }
}
