/** An installed build or a store release. */
module AppVersions {
  import opened Basics

  datatype AppVersion = AppVersion(version: string, buildNumber: string, trackId: Option<int>) {

    /** The display string `"{version} ({buildNumber})"`, e.g. "1.0.0 (42)". */
    function FullVersion(): (r: string)
      ensures |r| == |version| + |buildNumber| + 3
      ensures r[..|version|] == version
      ensures r[|version|..|version| + 2] == " ("
      ensures r[|version| + 2..|r| - 1] == buildNumber
      ensures r[|r| - 1] == ')'
    {
      version + " (" + buildNumber + ")"
    }
  }

  /** `AppVersion.init(version:buildNumber:trackId:)`, whose `trackId` defaults to nil. */
  function NewAppVersion(version: string, buildNumber: string, trackId: Option<int> := None): (a: AppVersion)
    ensures a.version == version && a.buildNumber == buildNumber && a.trackId == trackId
  {
    AppVersion(version, buildNumber, trackId)
  }
}
