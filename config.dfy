/**
 * The checks readConfig and readCameraConfig make on the parsed configuration
 * document, and the static state they fill in (team, server, cameraConfigs).
 * What parseError prints is kept as a list of reports.
 */
module Config {
  import opened Optional

  /** A parsed Gson element. */
  datatype Json =
    | JString(s: string)
    | JInt(n: int)
    | JBool(b: bool)
    | JArray(elements: seq<Json>)
    | JObject(members: map<string, Json>)
    | JNull

  /** Main.CameraConfig. `streamConfig` is None where Gson's `get` gives null. */
  datatype CameraConfig = CameraConfig(name: string, path: string, config: map<string, Json>, streamConfig: Option<Json>)

  /** The messages handed to parseError. */
  datatype ParseError =
    | MissingCameraName
    | MissingCameraPath(camera: string)
    | NotAnObject
    | MissingTeam
    | UnknownNtMode(value: string)
    | MissingCameras

  /** How a read ends: by returning a boolean, or by an exception thrown from a
      Gson conversion (getAsString, getAsInt, getAsJsonArray, getAsJsonObject). */
  datatype Outcome = Returned(ok: bool) | Threw

  /** The static fields of Main that reading the configuration sets. */
  datatype Settings = Settings(team: int, server: bool, cameraConfigs: seq<CameraConfig>, reported: seq<ParseError>)

  function Report(s: Settings, e: ParseError): Settings
  {
    s.(reported := s.reported + [e])
  }

  /** What readCameraConfig makes of one camera object. */
  datatype CameraRead = Read(camera: CameraConfig) | Rejected(error: ParseError) | ConversionFailed

  function ReadCamera(config: map<string, Json>): (r: CameraRead)
    ensures r.Read? <==> "name" in config && config["name"].JString? && "path" in config && config["path"].JString?
    ensures r.Read? ==> r.camera.name == config["name"].s && r.camera.path == config["path"].s && r.camera.config == config
    ensures r.Read? ==> r.camera.streamConfig == (if "stream" in config then Some(config["stream"]) else None)
    // getAsString throws on a name or path that is not a string
    ensures "name" in config && !config["name"].JString? ==> r == ConversionFailed
    ensures "name" in config && config["name"].JString? && "path" in config && !config["path"].JString? ==>
              r == ConversionFailed
    ensures "name" !in config ==> r == Rejected(MissingCameraName)
    ensures "name" in config && config["name"].JString? && "path" !in config ==>
              r == Rejected(MissingCameraPath(config["name"].s))
  {
    if "name" !in config then Rejected(MissingCameraName)
    else if !config["name"].JString? then ConversionFailed
    else
      var name := config["name"].s;
      if "path" !in config then Rejected(MissingCameraPath(name))
      else if !config["path"].JString? then ConversionFailed
      else
        var stream := if "stream" in config then Some(config["stream"]) else None;
        Read(CameraConfig(name, config["path"].s, config, stream))
  }

  /** One element of the "cameras" array: getAsJsonObject, then readCameraConfig. */
  function ReadCameraElement(e: Json): CameraRead
  {
    if e.JObject? then ReadCamera(e.members) else ConversionFailed
  }

  /** The loop over the cameras: each accepted camera is appended before the next
      is looked at, and the first one not accepted ends the loop. */
  function ReadCameras(cams: seq<Json>, s: Settings): (Outcome, Settings)
  {
    if cams == [] then (Returned(true), s)
    else
      match ReadCameraElement(cams[0])
      case Read(c) => ReadCameras(cams[1..], s.(cameraConfigs := s.cameraConfigs + [c]))
      case Rejected(e) => (Returned(false), Report(s, e))
      case ConversionFailed => (Threw, s)
  }

  /** The number of cameras accepted before the first one that is not. */
  function FirstUnread(cams: seq<Json>): (i: nat)
    ensures i <= |cams|
    ensures forall j :: 0 <= j < i ==> ReadCameraElement(cams[j]).Read?
    ensures i < |cams| ==> !ReadCameraElement(cams[i]).Read?
  {
    if cams == [] || !ReadCameraElement(cams[0]).Read? then 0
    else 1 + FirstUnread(cams[1..])
  }

  /** The configurations of a run of accepted cameras, in order. */
  function ConfigsOf(cams: seq<Json>): (r: seq<CameraConfig>)
    requires forall j :: 0 <= j < |cams| ==> ReadCameraElement(cams[j]).Read?
    ensures |r| == |cams|
    ensures forall j :: 0 <= j < |cams| ==> r[j] == ReadCameraElement(cams[j]).camera
  {
    if cams == [] then [] else [ReadCameraElement(cams[0]).camera] + ConfigsOf(cams[1..])
  }

  /** The configurations of an accepted prefix start with its first camera's. */
  lemma ConfigsOfCons(cams: seq<Json>, i: nat)
    requires 0 < i <= |cams|
    requires forall j :: 0 <= j < i ==> ReadCameraElement(cams[j]).Read?
    ensures ConfigsOf(cams[..i]) == [ReadCameraElement(cams[0]).camera] + ConfigsOf(cams[1..i])
  {
    assert cams[..i][1..] == cams[1..i];
  }

  /** The loop stops at the first camera that is not accepted, and every camera
      before it stays appended; team and mode are untouched. */
  lemma {:induction false} ReadCamerasPrefix(cams: seq<Json>, s: Settings)
    ensures ReadCameras(cams, s).1.cameraConfigs == s.cameraConfigs + ConfigsOf(cams[..FirstUnread(cams)])
  {
    if cams != [] && ReadCameraElement(cams[0]).Read? {
      var c := ReadCameraElement(cams[0]).camera;
      var s1 := s.(cameraConfigs := s.cameraConfigs + [c]);
      assert ReadCameras(cams, s) == ReadCameras(cams[1..], s1);
      ReadCamerasPrefix(cams[1..], s1);
      var i := FirstUnread(cams);
      assert cams[1..][..i - 1] == cams[1..i];
      ConfigsOfCons(cams, i);
    } else {
      assert cams[..0] == [];
    }
  }

  /** The camera loop leaves the team number and the mode as they were. */
  lemma {:induction false} ReadCamerasKeepsMode(cams: seq<Json>, s: Settings)
    ensures ReadCameras(cams, s).1.team == s.team && ReadCameras(cams, s).1.server == s.server
  {
    if cams != [] && ReadCameraElement(cams[0]).Read? {
      var c := ReadCameraElement(cams[0]).camera;
      ReadCamerasKeepsMode(cams[1..], s.(cameraConfigs := s.cameraConfigs + [c]));
    }
  }

  /** Only a loop that gets through every camera succeeds; a rejected camera
      ends it with its report, a failed conversion with an exception. */
  lemma {:induction false} ReadCamerasOutcome(cams: seq<Json>, s: Settings)
    ensures var i := FirstUnread(cams);
      && (ReadCameras(cams, s).0 == Returned(true) <==> i == |cams|)
      && (i == |cams| ==> ReadCameras(cams, s).1.reported == s.reported)
      && (i < |cams| && ReadCameraElement(cams[i]).Rejected? ==>
            ReadCameras(cams, s) .0 == Returned(false) &&
            ReadCameras(cams, s).1.reported == s.reported + [ReadCameraElement(cams[i]).error])
      && (i < |cams| && ReadCameraElement(cams[i]).ConversionFailed? ==>
            ReadCameras(cams, s).0 == Threw && ReadCameras(cams, s).1.reported == s.reported)
  {
    if cams != [] && ReadCameraElement(cams[0]).Read? {
      var c := ReadCameraElement(cams[0]).camera;
      ReadCamerasOutcome(cams[1..], s.(cameraConfigs := s.cameraConfigs + [c]));
    }
  }

  /** JsonElement.getAsInt on an integral JSON number: Java's narrowing to int
      keeps the low 32 bits, as a two's-complement value. */
  function ToJavaInt(n: int): (r: int)
    ensures -0x8000_0000 <= r < 0x8000_0000
    ensures (r - n) % 0x1_0000_0000 == 0
  {
    (n + 0x8000_0000) % 0x1_0000_0000 - 0x8000_0000
  }

  /** Java's String.equalsIgnoreCase, for ASCII letters. */
  function ToLowerAscii(c: char): char
  {
    if 'A' <= c <= 'Z' then (c as int + 32) as char else c
  }

  predicate EqualsIgnoreCase(a: string, b: string)
  {
    |a| == |b| && forall i :: 0 <= i < |a| ==> ToLowerAscii(a[i]) == ToLowerAscii(b[i])
  }

  /** No value matches both "client" and "server". */
  lemma ClientOrServer(str: string)
    ensures !(EqualsIgnoreCase("client", str) && EqualsIgnoreCase("server", str))
  {
    if EqualsIgnoreCase("client", str) {
      assert ToLowerAscii(str[0]) == 'c';
    }
  }

  /** The optional "ntmode" member: "client" and "server" in any letter case pick
      the mode; anything else is reported and the mode left as it was. */
  function NtMode(s: Settings, str: string): (s': Settings)
    ensures s'.team == s.team && s'.cameraConfigs == s.cameraConfigs
    ensures EqualsIgnoreCase("client", str) ==> s' == s.(server := false)
    ensures EqualsIgnoreCase("server", str) ==> s' == s.(server := true)
    ensures !EqualsIgnoreCase("client", str) && !EqualsIgnoreCase("server", str) ==>
              s' == Report(s, UnknownNtMode(str))
  {
    ClientOrServer(str);
    if EqualsIgnoreCase("client", str) then s.(server := false)
    else if EqualsIgnoreCase("server", str) then s.(server := true)
    else Report(s, UnknownNtMode(str))
  }

  /** Two ntmode values that differ only in letter case select the same mode. */
  lemma NtModeIgnoresCase(s: Settings, a: string, b: string)
    requires |a| == |b| && forall i :: 0 <= i < |a| ==> ToLowerAscii(a[i]) == ToLowerAscii(b[i])
    ensures EqualsIgnoreCase("client", a) <==> EqualsIgnoreCase("client", b)
    ensures EqualsIgnoreCase("server", a) <==> EqualsIgnoreCase("server", b)
    ensures NtMode(s, a).server == NtMode(s, b).server
  {
  }

  /** Worked cases of the comparison. */
  lemma NtModeExamples()
    ensures EqualsIgnoreCase("client", "CLIENT") && EqualsIgnoreCase("client", "Client")
    ensures EqualsIgnoreCase("server", "SERVER") && EqualsIgnoreCase("server", "sErVeR")
    ensures !EqualsIgnoreCase("client", "clients") && !EqualsIgnoreCase("server", "client")
  {
    assert ToLowerAscii("server"[0]) != ToLowerAscii("client"[0]);
  }

  /** readConfig after parsing: the top level must be an object with "team" and
      "cameras"; "ntmode" is optional. */
  function ReadConfigSpec(top: Json, s: Settings): (Outcome, Settings)
  {
    if !top.JObject? then (Returned(false), Report(s, NotAnObject))
    else
      var obj := top.members;
      if "team" !in obj then (Returned(false), Report(s, MissingTeam))
      else if !obj["team"].JInt? then (Threw, s)
      else
        var s1 := s.(team := ToJavaInt(obj["team"].n));
        if "ntmode" in obj && !obj["ntmode"].JString? then (Threw, s1)
        else
          var s2 := if "ntmode" in obj then NtMode(s1, obj["ntmode"].s) else s1;
          if "cameras" !in obj then (Returned(false), Report(s2, MissingCameras))
          else if !obj["cameras"].JArray? then (Threw, s2)
          else ReadCameras(obj["cameras"].elements, s2)
  }

  /** A missing team number fails before anything is set. */
  lemma MissingTeamFails(obj: map<string, Json>, s: Settings)
    requires "team" !in obj
    ensures ReadConfigSpec(JObject(obj), s) == (Returned(false), Report(s, MissingTeam))
  {
  }

  /** A missing camera list fails after the team number (and mode) are set, with
      no camera appended. */
  lemma MissingCamerasFails(obj: map<string, Json>, s: Settings)
    requires "team" in obj && obj["team"].JInt? && "cameras" !in obj
    requires "ntmode" !in obj || obj["ntmode"].JString?
    ensures var (o, s') := ReadConfigSpec(JObject(obj), s);
      o == Returned(false) && s'.team == ToJavaInt(obj["team"].n) && s'.cameraConfigs == s.cameraConfigs
      && s'.reported[|s'.reported| - 1] == MissingCameras
  {
  }

  /** readConfig succeeds exactly when the document is an object with an integer
      team, a well-typed optional ntmode and an array of cameras that are all
      accepted; then all of them are appended, in order. */
  lemma ReadConfigSuccess(top: Json, s: Settings)
    ensures ReadConfigSpec(top, s).0 == Returned(true) <==>
      && top.JObject?
      && "team" in top.members && top.members["team"].JInt?
      && ("ntmode" in top.members ==> top.members["ntmode"].JString?)
      && "cameras" in top.members && top.members["cameras"].JArray?
      && FirstUnread(top.members["cameras"].elements) == |top.members["cameras"].elements|
    ensures ReadConfigSpec(top, s).0 == Returned(true) ==>
      var cams := top.members["cameras"].elements;
      && ReadConfigSpec(top, s).1.cameraConfigs == s.cameraConfigs + ConfigsOf(cams)
      && ReadConfigSpec(top, s).1.team == ToJavaInt(top.members["team"].n)
  {
    if top.JObject? && "team" in top.members && top.members["team"].JInt?
       && ("ntmode" in top.members ==> top.members["ntmode"].JString?)
       && "cameras" in top.members && top.members["cameras"].JArray? {
      var obj := top.members;
      var s1 := s.(team := ToJavaInt(obj["team"].n));
      var s2 := if "ntmode" in obj then NtMode(s1, obj["ntmode"].s) else s1;
      var cams := obj["cameras"].elements;
      ReadCamerasPrefix(cams, s2);
      ReadCamerasKeepsMode(cams, s2);
      ReadCamerasOutcome(cams, s2);
      assert cams[..|cams|] == cams;
    }
  }

  /** A bad camera stops readConfig: it fails, and the cameras before it stay appended. */
  lemma BadCameraStops(obj: map<string, Json>, s: Settings)
    requires "team" in obj && obj["team"].JInt?
    requires "ntmode" !in obj || obj["ntmode"].JString?
    requires "cameras" in obj && obj["cameras"].JArray?
    requires FirstUnread(obj["cameras"].elements) < |obj["cameras"].elements|
    ensures var (o, s') := ReadConfigSpec(JObject(obj), s);
      var cams := obj["cameras"].elements;
      o != Returned(true) && s'.cameraConfigs == s.cameraConfigs + ConfigsOf(cams[..FirstUnread(cams)])
  {
    var s1 := s.(team := ToJavaInt(obj["team"].n));
    var s2 := if "ntmode" in obj then NtMode(s1, obj["ntmode"].s) else s1;
    ReadCamerasPrefix(obj["cameras"].elements, s2);
    ReadCamerasOutcome(obj["cameras"].elements, s2);
  }

  /** An ntmode value that is neither "client" nor "server" is reported and is
      not fatal: readConfig goes on exactly as if ntmode were absent. */
  lemma UnknownNtModeNotFatal(obj: map<string, Json>, s: Settings)
    requires "team" in obj && obj["team"].JInt?
    requires "ntmode" in obj && obj["ntmode"].JString?
    requires !EqualsIgnoreCase("client", obj["ntmode"].s) && !EqualsIgnoreCase("server", obj["ntmode"].s)
    ensures ReadConfigSpec(JObject(obj), s) ==
            ReadConfigSpec(JObject(obj - {"ntmode"}), Report(s, UnknownNtMode(obj["ntmode"].s)))
  {
    var rest := obj - {"ntmode"};
    assert "team" in rest && rest["team"] == obj["team"];
    assert ("cameras" in rest <==> "cameras" in obj) && ("cameras" in obj ==> rest["cameras"] == obj["cameras"]);
  }

  /** The static configuration state of Main, with what parseError has printed. */
  class MainConfig {
    var team: int
    var server: bool
    var cameraConfigs: seq<CameraConfig>
    var reported: seq<ParseError>

    function State(): Settings
      reads this
    {
      Settings(team, server, cameraConfigs, reported)
    }

    /** The static initial values: 0, false, an empty list, nothing printed. */
    constructor ()
      ensures State() == Settings(0, false, [], [])
    {
      team, server, cameraConfigs, reported := 0, false, [], [];
    }

    /** parseError. */
    method ReportError(e: ParseError)
      modifies this
      ensures State() == Report(old(State()), e)
    {
      reported := reported + [e];
    }

    /** readCameraConfig: a camera needs a name and a path; an accepted one is
        appended to cameraConfigs, a rejected one leaves the list alone. */
    method ReadCameraConfig(config: map<string, Json>) returns (r: Outcome)
      modifies this
      ensures ReadCamera(config).Read? ==>
                r == Returned(true) && State() == old(State()).(cameraConfigs := old(cameraConfigs) + [ReadCamera(config).camera])
      ensures ReadCamera(config).Rejected? ==>
                r == Returned(false) && State() == Report(old(State()), ReadCamera(config).error)
      ensures ReadCamera(config).ConversionFailed? ==> r == Threw && State() == old(State())
    {
      if "name" !in config {
        ReportError(MissingCameraName);
        return Returned(false);
      }
      if !config["name"].JString? { return Threw; }
      var name := config["name"].s;
      if "path" !in config {
        ReportError(MissingCameraPath(name));
        return Returned(false);
      }
      if !config["path"].JString? { return Threw; }
      var path := config["path"].s;
      var streamConfig := if "stream" in config then Some(config["stream"]) else None;
      cameraConfigs := cameraConfigs + [CameraConfig(name, path, config, streamConfig)];
      return Returned(true);
    }

    /** readConfig from the parsed document on. */
    method ReadConfig(top: Json) returns (r: Outcome)
      modifies this
      ensures (r, State()) == ReadConfigSpec(top, old(State()))
    {
      if !top.JObject? {
        ReportError(NotAnObject);
        return Returned(false);
      }
      var obj := top.members;
      if "team" !in obj {
        ReportError(MissingTeam);
        return Returned(false);
      }
      if !obj["team"].JInt? { return Threw; }
      team := ToJavaInt(obj["team"].n);
      if "ntmode" in obj {
        if !obj["ntmode"].JString? { return Threw; }
        var str := obj["ntmode"].s;
        if EqualsIgnoreCase("client", str) {
          server := false;
        } else if EqualsIgnoreCase("server", str) {
          server := true;
        } else {
          ReportError(UnknownNtMode(str));
        }
      }
      if "cameras" !in obj {
        ReportError(MissingCameras);
        return Returned(false);
      }
      if !obj["cameras"].JArray? { return Threw; }
      var cameras := obj["cameras"].elements;
      ghost var start := State();
      var i := 0;
      while i < |cameras|
        invariant 0 <= i <= |cameras|
        invariant ReadCameras(cameras[i..], State()) == ReadCameras(cameras, start)
      {
        var camera := cameras[i];
        assert cameras[i..][1..] == cameras[i + 1..];
        if !camera.JObject? { return Threw; }
        var ok := ReadCameraConfig(camera.members);
        if ok != Returned(true) { return ok; }
        i := i + 1;
      }
      return Returned(true);
    }
  }
}
