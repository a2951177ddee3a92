/** The tool's settings: the option record that command-line parsing fills in,
    the defaults taken from the daemon's own configuration file, the check on the
    output modes and the resolution of the target height against the chain tip. */
module Settings {
  import opened Common

  /** The `config` record; flag parsing (left out) overwrites these fields. */
  datatype Config = Config(
    rpcUser: string,
    rpcPass: string,
    rpcCert: string,
    rpcConnect: string,
    targetHeight: uint64,
    testNet: bool,
    progress: bool,
    hashes: bool,
    binary: bool)

  /** The subset of the daemon's configuration file that is read. */
  datatype DcrdConf = DcrdConf(rpcUser: string, rpcPass: string, rpcCert: string, testNet: bool)

  /** Why a run stops early. */
  datatype Failure =
    | ConflictingModes                                  // both --hashes and --binary
    | SetupFailed(err: string)                          // certificate, connection or block count
    | TargetAboveTip(target: uint64, blockCount: int64) // --targetheight beyond the block count
    | FetchFailed(err: string)                          // a block hash or filter request failed
    | DivideByZero                                      // the average line with a target of 0

  const MainnetConnect := "localhost:9109"
  const TestnetConnect := "localhost:19109"

  /** The option record before anything is read: only the certificate path is set,
      to `rpc.cert` in the daemon's data directory (`certPath`). */
  function Initial(certPath: string): (cfg: Config)
    ensures cfg.rpcCert == certPath && cfg.targetHeight == 0
    ensures cfg.rpcUser == "" && cfg.rpcPass == "" && cfg.rpcConnect == ""
    ensures !cfg.testNet && !cfg.progress && !cfg.hashes && !cfg.binary
  {
    Config("", "", certPath, "", 0, false, false, false, false)
  }

  /** The options after a daemon configuration file was read successfully: the
      credentials are copied, the connect address is the local daemon's port for the
      chosen network, and the certificate named in the file is NOT taken over. */
  function WithDcrdConf(cfg: Config, d: DcrdConf): (r: Config)
    ensures r.rpcUser == d.rpcUser && r.rpcPass == d.rpcPass
    ensures r.rpcCert == cfg.rpcCert
    ensures r.testNet == (cfg.testNet || d.testNet)
    ensures r.rpcConnect == (if d.testNet then TestnetConnect else MainnetConnect)
    ensures r.targetHeight == cfg.targetHeight && r.progress == cfg.progress
    ensures r.hashes == cfg.hashes && r.binary == cfg.binary
  {
    var r := cfg.(rpcUser := d.rpcUser, rpcPass := d.rpcPass);
    if d.testNet then r.(rpcConnect := TestnetConnect, testNet := true)
    else r.(rpcConnect := MainnetConnect)
  }

  /** Starting from the initial options, the defaults taken from the daemon's file
      point at the daemon port of the network they select. */
  lemma DefaultsMatchNetwork(certPath: string, d: DcrdConf)
    ensures WithDcrdConf(Initial(certPath), d).testNet == d.testNet
    ensures var r := WithDcrdConf(Initial(certPath), d);
      r.rpcConnect == TestnetConnect <==> r.testNet
  {
  }

  /** Hex text and binary output cannot both be asked for. */
  function CheckModes(cfg: Config): (r: Option<Failure>)
    ensures r.Some? <==> cfg.hashes && cfg.binary
    ensures r.Some? ==> r.value == ConflictingModes
  {
    if cfg.hashes && cfg.binary then Some(ConflictingModes) else None
  }

  /** The resolved `--targetheight`: fatal when beyond the reported block count,
      and the block count itself when the option is 0. */
  function ResolveTarget(targetHeight: uint64, blockCount: int64): (r: Result<uint64, Failure>)
    ensures targetHeight < 0x8000_0000_0000_0000 ==> (r.Ok? <==> targetHeight <= blockCount)
    ensures r.Err? ==> r.error == TargetAboveTip(targetHeight, blockCount)
    ensures r.Ok? && targetHeight == 0 ==> r.value == blockCount
    ensures r.Ok? && targetHeight != 0 ==> r.value == targetHeight
    ensures r.Ok? && targetHeight < 0x8000_0000_0000_0000 ==> r.value <= blockCount
  {
    if blockCount < ToInt64(targetHeight) then Err(TargetAboveTip(targetHeight, blockCount))
    else if targetHeight == 0 then Ok(blockCount as uint64)
    else Ok(targetHeight)
  }
}
