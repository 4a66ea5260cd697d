/**
 * The background-services descriptor: three single services (`redirector`,
 * `fiddler`, `server`) and two lists of processes (`start`, `stop`), each a
 * path, a file name, arguments and a kill flag. Like the playlist decoder it
 * fills a default record, overwrites what is present and reports what is
 * missing; every report is prefixed so the reader knows which file it is
 * about.
 */
module BackgroundServices {
  import opened Wrappers
  import opened Js
  import opened ObjectParser

  datatype BackProcessInfo = BackProcessInfo(path: string, filename: string, arguments: seq<string>, kill: bool)

  /** The descriptor; the three single services start out absent. */
  datatype BackProcessInfoFile = BackProcessInfoFile(
    redirector: Option<BackProcessInfo>,
    fiddler: Option<BackProcessInfo>,
    server: Option<BackProcessInfo>,
    start: seq<BackProcessInfo>,
    stop: seq<BackProcessInfo>)

  const ServicesErrorPrefix: string := "Error while parsing Services: "

  /** `str`: `(v || '') + ''`. */
  function Str(v: Json, asString: Json -> string): (r: string)
    ensures !Truthy(v) ==> r == ""
    ensures v.JStr? ==> r == v.s
    ensures Truthy(v) && !v.JStr? ==> r == asString(v)
  {
    StringOf(if Truthy(v) then v else JStr(""), asString)
  }

  // ---- The decoders as functions of their input ----

  /** The strings `arguments` collects from the raw elements. */
  function Arguments(items: seq<Json>, asString: Json -> string): seq<string> {
    seq(|items|, i requires 0 <= i < |items| => Str(items[i], asString))
  }

  /** `parseBackProcessInfo`: the record and the errors reported, in order. */
  function ParsedInfo(p: Parser, asString: Json -> string): (BackProcessInfo, seq<ErrorThing>) {
    var rPath := Prop(p, "path", false);
    var rFilename := Prop(p, "filename", false);
    var rKill := Prop(p, "kill", true);
    var rArguments := Prop(p, "arguments", false);
    (BackProcessInfo(
       match rPath.found case Some(v) => Str(v, asString) case None => "",
       match rFilename.found case Some(v) => Str(v, asString) case None => "",
       Arguments(RawElements(rArguments.child), asString),
       match rKill.found case Some(v) => Truthy(v) case None => false),
     rPath.errors + rFilename.errors + rKill.errors + (rArguments.errors + ArrayErrors(rArguments.child)))
  }

  /** The callback of `prop('start').array(...)` as a function value. */
  function InfoDecoder(asString: Json -> string): Parser -> (BackProcessInfo, seq<ErrorThing>) {
    item => ParsedInfo(item, asString)
  }

  /** The records `prop(key).array(...)` pushes, and what it reports. */
  function ParsedInfoList(data: Json, key: string, asString: Json -> string): (seq<BackProcessInfo>, seq<ErrorThing>) {
    var r := Prop(NewParser(data), key, false);
    var c := Collect(ElementParsers(r.child), InfoDecoder(asString));
    (c.0, r.errors + ArrayErrors(r.child) + c.1)
  }

  /** `parseBackProcessInfo(parser.prop(key))`: the record and what both report. */
  function ParsedService(data: Json, key: string, asString: Json -> string): (BackProcessInfo, seq<ErrorThing>) {
    var r := Prop(NewParser(data), key, false);
    var info := ParsedInfo(r.child, asString);
    (info.0, r.errors + info.1)
  }

  /** `parseBackProcessInfoFile`: the descriptor and every error reported, in order. */
  function ParsedFile(data: Json, asString: Json -> string): (BackProcessInfoFile, seq<ErrorThing>) {
    var redirector := ParsedService(data, "redirector", asString);
    var fiddler := ParsedService(data, "fiddler", asString);
    var server := ParsedService(data, "server", asString);
    var start := ParsedInfoList(data, "start", asString);
    var stop := ParsedInfoList(data, "stop", asString);
    (BackProcessInfoFile(Some(redirector.0), Some(fiddler.0), Some(server.0), start.0, stop.0),
     redirector.1 + fiddler.1 + server.1 + start.1 + stop.1)
  }

  /** What the `onError` passed in receives for each error. */
  function ServiceMessages(errors: seq<ErrorThing>): (r: seq<string>)
    ensures |r| == |errors|
  {
    seq(|errors|, i requires 0 <= i < |errors| => ServicesErrorPrefix + ErrorText(errors[i]))
  }

  // ---- The decoders as the source runs them ----

  /** The strings `prop('arguments').arrayRaw(item => arguments.push(str(item)))` pushes. */
  method ParseArguments(p: Parser, asString: Json -> string) returns (arguments: seq<string>, errors: seq<ErrorThing>)
    ensures arguments == Arguments(RawElements(Prop(p, "arguments", false).child), asString)
    ensures errors == Prop(p, "arguments", false).errors + ArrayErrors(Prop(p, "arguments", false).child)
  {
    var r := Prop(p, "arguments", false);
    var items, arrayErrors := ArrayRaw(r.child);
    errors := r.errors + arrayErrors;
    arguments := [];
    var i := 0;
    while i < |items|
      invariant 0 <= i <= |items|
      invariant arguments == Arguments(items[..i], asString)
    {
      assert items[..i + 1][..i] == items[..i];
      arguments := arguments + [Str(items[i], asString)];
      i := i + 1;
    }
    assert items[..|items|] == items;
  }

  /** `parseBackProcessInfo`: fill the defaults, overwrite what is present, push the arguments. */
  method ParseBackProcessInfo(p: Parser, asString: Json -> string) returns (info: BackProcessInfo, errors: seq<ErrorThing>)
    ensures (info, errors) == ParsedInfo(p, asString)
  {
    info := BackProcessInfo("", "", [], false);
    var r := Prop(p, "path", false);
    errors := r.errors;
    if r.found.Some? { info := info.(path := Str(r.found.value, asString)); }
    r := Prop(p, "filename", false);
    errors := errors + r.errors;
    if r.found.Some? { info := info.(filename := Str(r.found.value, asString)); }
    r := Prop(p, "kill", true);
    errors := errors + r.errors;
    if r.found.Some? { info := info.(kill := Truthy(r.found.value)); }
    var arguments, argumentErrors := ParseArguments(p, asString);
    errors := errors + argumentErrors;
    info := info.(arguments := info.arguments + arguments);
    ghost var spec := ParsedInfo(p, asString);
    assert info.path == spec.0.path;
    assert info.filename == spec.0.filename;
    assert info.kill == spec.0.kill;
    assert info.arguments == spec.0.arguments;
    assert errors == spec.1;
  }

  /** The loop `array` runs: one record pushed per element parser, in order. */
  method ParseInfos(items: seq<Parser>, asString: Json -> string) returns (infos: seq<BackProcessInfo>, errors: seq<ErrorThing>)
    ensures (infos, errors) == Collect(items, InfoDecoder(asString))
  {
    infos := [];
    errors := [];
    var i := 0;
    while i < |items|
      invariant 0 <= i <= |items|
      invariant (infos, errors) == Collect(items[..i], InfoDecoder(asString))
    {
      var info, infoErrors := ParseBackProcessInfo(items[i], asString);
      assert items[..i + 1][..i] == items[..i];
      infos := infos + [info];
      errors := errors + infoErrors;
      i := i + 1;
    }
    assert items[..|items|] == items;
  }

  /** `parser.prop(key).array(item => list.push(parseBackProcessInfo(item)))` */
  method ParseInfoList(data: Json, key: string, asString: Json -> string) returns (infos: seq<BackProcessInfo>, errors: seq<ErrorThing>)
    ensures (infos, errors) == ParsedInfoList(data, key, asString)
  {
    var r := Prop(NewParser(data), key, false);
    var items, arrayErrors := Array(r.child);
    var infoErrors;
    infos, infoErrors := ParseInfos(items, asString);
    errors := r.errors + arrayErrors + infoErrors;
  }

  /** `parseBackProcessInfo(parser.prop(key))` */
  method ParseService(data: Json, key: string, asString: Json -> string) returns (info: BackProcessInfo, errors: seq<ErrorThing>)
    ensures (info, errors) == ParsedService(data, key, asString)
  {
    var r := Prop(NewParser(data), key, false);
    var infoErrors;
    info, infoErrors := ParseBackProcessInfo(r.child, asString);
    errors := r.errors + infoErrors;
  }

  /** `parseBackProcessInfoFile` */
  method ParseBackProcessInfoFile(data: Json, asString: Json -> string) returns (parsed: BackProcessInfoFile, messages: seq<string>)
    ensures parsed == ParsedFile(data, asString).0
    ensures messages == ServiceMessages(ParsedFile(data, asString).1)
  {
    parsed := BackProcessInfoFile(None, None, None, [], []);
    var info, errors, more;
    info, errors := ParseService(data, "redirector", asString);
    parsed := parsed.(redirector := Some(info));
    info, more := ParseService(data, "fiddler", asString);
    errors := errors + more;
    parsed := parsed.(fiddler := Some(info));
    info, more := ParseService(data, "server", asString);
    errors := errors + more;
    parsed := parsed.(server := Some(info));
    var infos;
    infos, more := ParseInfoList(data, "start", asString);
    errors := errors + more;
    parsed := parsed.(start := infos);
    infos, more := ParseInfoList(data, "stop", asString);
    errors := errors + more;
    parsed := parsed.(stop := infos);
    messages := ServiceMessages(errors);
  }

  // ---- What the decoders promise ----

  /**
   * On a value that has none of the four keys (an empty object, null or
   * undefined), the record is the defaults, and the errors are `path`,
   * `filename` and `arguments` missing and `arguments` not being an array.
   */
  lemma InfoDefaults(p: Parser, asString: Json -> string)
    requires !Owns(p, "path") && !Owns(p, "filename") && !Owns(p, "kill") && !Owns(p, "arguments")
    requires !ChildValue(p.property, "arguments").JArr?
    ensures ParsedInfo(p, asString) ==
      (BackProcessInfo("", "", [], false),
       [ErrorThing(p.stack, NotFoundMessage("path")), ErrorThing(p.stack, NotFoundMessage("filename")),
        ErrorThing(p.stack, NotFoundMessage("arguments")), ErrorThing(p.stack + ["arguments"], NotArrayMessage)])
  {
    var r := ParsedInfo(p, asString);
    assert r.0 == BackProcessInfo("", "", [], false);
    assert Prop(p, "path", false).errors == [ErrorThing(p.stack, NotFoundMessage("path"))];
    assert Prop(p, "filename", false).errors == [ErrorThing(p.stack, NotFoundMessage("filename"))];
    assert Prop(p, "kill", true).errors == [];
    assert Prop(p, "arguments", false).errors == [ErrorThing(p.stack, NotFoundMessage("arguments"))];
    assert ArrayErrors(Prop(p, "arguments", false).child) == [ErrorThing(p.stack + ["arguments"], NotArrayMessage)];
    assert r.1 == [ErrorThing(p.stack, NotFoundMessage("path"))] + [ErrorThing(p.stack, NotFoundMessage("filename"))] + []
      + ([ErrorThing(p.stack, NotFoundMessage("arguments"))] + [ErrorThing(p.stack + ["arguments"], NotArrayMessage)]);
    assert r.1 == [ErrorThing(p.stack, NotFoundMessage("path")), ErrorThing(p.stack, NotFoundMessage("filename")),
        ErrorThing(p.stack, NotFoundMessage("arguments")), ErrorThing(p.stack + ["arguments"], NotArrayMessage)];
  }

  /** A missing `kill` is `false` and never reported; a present one becomes its truthiness. */
  lemma InfoKill(p: Parser, asString: Json -> string)
    ensures ParsedInfo(p, asString).0.kill <==> Owns(p, "kill") && Truthy(Member(p.property, "kill"))
    ensures forall e :: e in ParsedInfo(p, asString).1 ==> e.message != NotFoundMessage("kill")
  {
    var r := ParsedInfo(p, asString);
    forall e | e in r.1 ensures e.message != NotFoundMessage("kill") {
      NotFoundMessageInjective("kill", "path");
      NotFoundMessageInjective("kill", "filename");
      NotFoundMessageInjective("kill", "arguments");
      assert NotArrayMessage != NotFoundMessage("kill");
    }
  }

  /**
   * `arguments` has one string per element of the input array, in order,
   * each passed through `str`; a value that is not an array gives none.
   */
  lemma InfoArguments(p: Parser, asString: Json -> string)
    ensures var a := ChildValue(p.property, "arguments");
      var args := ParsedInfo(p, asString).0.arguments;
      if a.JArr? then |args| == |a.items| && forall i :: 0 <= i < |args| ==> args[i] == Str(a.items[i], asString)
      else args == []
  {
  }

  /**
   * `redirector`, `fiddler` and `server` are always records, each decoded
   * from the value under its own key, whether or not the key is present.
   */
  lemma FileServicesPresent(data: Json, asString: Json -> string)
    ensures var f := ParsedFile(data, asString).0;
      && f.redirector == Some(ParsedInfo(Parser(ChildValue(data, "redirector"), ["redirector"]), asString).0)
      && f.fiddler == Some(ParsedInfo(Parser(ChildValue(data, "fiddler"), ["fiddler"]), asString).0)
      && f.server == Some(ParsedInfo(Parser(ChildValue(data, "server"), ["server"]), asString).0)
  {
  }

  /**
   * A list has one record per element of the input array, in order, each
   * decoded from its element under the path `key[i]`; a value that is not an
   * array gives no records.
   */
  lemma InfoListFollowsInput(data: Json, key: string, asString: Json -> string)
    ensures var a := ChildValue(data, key);
      var infos := ParsedInfoList(data, key, asString).0;
      if a.JArr? then
        |infos| == |a.items|
        && forall i :: 0 <= i < |a.items| ==>
             infos[i] == ParsedInfo(Parser(a.items[i], [key, NatToString(i)]), asString).0
      else infos == []
  {
    var r := Prop(NewParser(data), key, false);
    CollectInOrder(ElementParsers(r.child), InfoDecoder(asString));
  }

  /** `start` and `stop` are the lists decoded from those two keys. */
  lemma FileListsFollowInput(data: Json, asString: Json -> string)
    ensures ParsedFile(data, asString).0.start == ParsedInfoList(data, "start", asString).0
    ensures ParsedFile(data, asString).0.stop == ParsedInfoList(data, "stop", asString).0
  {
  }

  /** Every message sent to `onError` starts with the services prefix, then the error's text. */
  lemma MessagesArePrefixed(errors: seq<ErrorThing>)
    ensures forall i :: 0 <= i < |errors| ==>
      StartsWith(ServiceMessages(errors)[i], ServicesErrorPrefix)
      && ServiceMessages(errors)[i][|ServicesErrorPrefix|..] == ErrorText(errors[i])
  {
  }
}
