// The operating-system lookup tables of pastelup: executable names,
// release archive names and download URLs per OS.
module Constants {
  import opened Util

  /** OSType: Windows, Linux, MAC or Unknown. */
  datatype OSType = Windows | Linux | Mac | Unknown

  /** The string value of each OSType constant. */
  function OSName(os: OSType): (r: string)
    ensures os == Mac ==> r == "MAC"
    ensures os != Mac ==> r != "MAC"
  {
    match os
    case Windows => "Windows"
    case Linux => "Linux"
    case Mac => "MAC"
    case Unknown => "Unknown"
  }

  /** constants.ToolType. The tool constants and the systemd directory
      constants are declared in a part of the constants package that this
      model does not include; the tool names below are the values pastelup
      uses, and nothing proved depends on them beyond their being distinct. */
  type ToolType = string

  const PastelD: ToolType := "pasteld"
  const RQService: ToolType := "rq-service"
  const DDService: ToolType := "dd-service"
  const DDImgService: ToolType := "dd-img-server"
  const SuperNode: ToolType := "supernode"
  const WalletNode: ToolType := "walletnode"

  /** constants.NetworkTestnet and constants.NetworkRegTest (declared
      outside constants/constants.go; install.go compares against the
      literal "testnet"). */
  const NetworkTestnet: string := "testnet"
  const NetworkRegTest: string := "regtest"

  const PastelConfName: string := "pastel.conf"

  /** PasteldName table. */
  function PasteldName(os: OSType): (r: string)
    ensures os == Windows ==> EndsWith(r, ".exe")
    ensures os == Linux || os == Mac ==> r == "pasteld"
    ensures (r == "") <==> os == Unknown
  {
    match os
    case Windows => "pasteld.exe"
    case Linux => "pasteld"
    case Mac => "pasteld"
    case Unknown => ""
  }

  /** PastelCliName table. */
  function PastelCliName(os: OSType): (r: string)
    ensures os == Windows ==> EndsWith(r, ".exe")
    ensures os == Linux || os == Mac ==> r == "pastel-cli"
    ensures (r == "") <==> os == Unknown
  {
    match os
    case Windows => "pastel-cli.exe"
    case Linux => "pastel-cli"
    case Mac => "pastel-cli"
    case Unknown => ""
  }

  /** PastelWalletExecName table. */
  function PastelWalletExecName(os: OSType): (r: string)
    ensures os == Windows ==> EndsWith(r, ".exe")
    ensures os != Windows ==> !EndsWith(r, ".exe")
    ensures (r == "") <==> os == Unknown
  {
    match os
    case Windows => "walletnode-windows-amd64.exe"
    case Linux => "walletnode-linux-amd64"
    case Mac => "walletnode-darwin-amd64"
    case Unknown => ""
  }

  /** PastelExecArchiveName table: a zip on Windows, a tarball elsewhere. */
  function PastelExecArchiveName(os: OSType): (r: string)
    ensures os == Windows ==> EndsWith(r, ".zip")
    ensures os == Linux || os == Mac ==> EndsWith(r, ".tar.gz")
    ensures (r == "") <==> os == Unknown
  {
    match os
    case Windows => "pastel-win64-rc5.1.zip"
    case Linux => "pastel-ubuntu20.04-rc5.1.tar.gz"
    case Mac => "pastel-osx-rc5.1.tar.gz"
    case Unknown => ""
  }

  const PastelReleaseBase: string := "https://github.com/pastelnetwork/pastel/releases/download/v1.0-rc5.1/"
  const WalletReleaseBase: string := "https://github.com/pastelnetwork/gonode/releases/download/v1.0-rc5.1/"

  /** PastelDownloadURL table. Each of the source's literal URLs is the
      release directory followed by that OS's archive name; the table is
      written that way here. */
  function PastelDownloadURL(os: OSType): string
  {
    match os
    case Windows => PastelReleaseBase + "pastel-win64-rc5.1.zip"
    case Linux => PastelReleaseBase + "pastel-ubuntu20.04-rc5.1.tar.gz"
    case Mac => PastelReleaseBase + "pastel-osx-rc5.1.tar.gz"
    case Unknown => ""
  }

  /** PastelWalletDownloadURL table, written the same way. */
  function PastelWalletDownloadURL(os: OSType): string
  {
    match os
    case Windows => WalletReleaseBase + "walletnode-windows-amd64"
    case Linux => WalletReleaseBase + "walletnode-linux-amd64"
    case Mac => WalletReleaseBase + "walletnode-darwin-amd64"
    case Unknown => ""
  }

  /** Every known OS downloads its own archive from the one release
      directory, so the URL ends with that OS's archive name; Unknown has
      no URL. */
  lemma DownloadURLIsReleasePlusArchive(os: OSType)
    ensures os != Unknown ==> PastelDownloadURL(os) == PastelReleaseBase + PastelExecArchiveName(os)
    ensures os != Unknown ==> EndsWith(PastelDownloadURL(os), PastelExecArchiveName(os))
    ensures os == Unknown ==> PastelDownloadURL(os) == ""
  {
    if os != Unknown {
      var u, a := PastelDownloadURL(os), PastelExecArchiveName(os);
      assert u[|u| - |a|..] == a;
    }
  }

  /** The walletnode URL ends in the executable name on Linux and Mac; on
      Windows it lacks the ".exe" that the executable name carries. */
  lemma WalletURLAndExecName(os: OSType)
    ensures os == Linux || os == Mac ==> PastelWalletDownloadURL(os) == WalletReleaseBase + PastelWalletExecName(os)
    ensures os == Windows ==> PastelWalletDownloadURL(os) + ".exe" == WalletReleaseBase + PastelWalletExecName(os)
  {
  }

  /** Every table maps Unknown, and only Unknown, to the empty string. */
  lemma UnknownIsEmptyEverywhere(os: OSType)
    ensures os == Unknown <==> PasteldName(os) == ""
    ensures os == Unknown <==> PastelCliName(os) == ""
    ensures os == Unknown <==> PastelWalletExecName(os) == ""
    ensures os == Unknown <==> PastelExecArchiveName(os) == ""
    ensures os == Unknown <==> PastelDownloadURL(os) == ""
    ensures os == Unknown <==> PastelWalletDownloadURL(os) == ""
  {
    DownloadURLIsReleasePlusArchive(os);
    WalletURLAndExecName(os);
  }
}
