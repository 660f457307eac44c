/** `normalizeNintendoSystem`: the system name accepted by the emulator factory. */
module Systems {
  import opened Wrappers
  import opened JsString

  datatype System = NES | SNES

  /** The canonical lower-case name of each system. */
  function Name(s: System): string
  {
    match s
    case NES => "nes"
    case SNES => "snes"
  }

  /** The argument as JavaScript passes it: `undefined`, `null` or a string. */
  datatype Argument = Undefined | Null | Str(value: string)

  /** `String(system ?? '')`: null and undefined become the empty text. */
  function Text(system: Argument): string
  {
    match system
    case Str(s) => s
    case _ => ""
  }

  /** `${system}` in the error message: how a template literal prints the argument. */
  function Shown(system: Argument): string
  {
    match system
    case Undefined => "undefined"
    case Null => "null"
    case Str(s) => s
  }

  function NormalizeNintendoSystem(system: Argument): (r: Result<System>)
    ensures r.Ok? <==> exists s: System :: ToLower(Trim(Text(system))) == Name(s)
    ensures r.Ok? ==> Name(r.value) == ToLower(Trim(Text(system)))
    ensures r.Err? ==> r == Err(RangeError("Unsupported system \"" + Shown(system) + "\". Use: nes or snes."))
  {
    var normalized := ToLower(Trim(Text(system)));
    if normalized == Name(NES) then Ok(NES)
    else if normalized == Name(SNES) then Ok(SNES)
    else Err(RangeError("Unsupported system \"" + Shown(system) + "\". Use: nes or snes."))
  }

  /** An undefined system is refused, and the message prints it as `undefined`. */
  lemma UndefinedRefused()
    ensures NormalizeNintendoSystem(Undefined) == Err(RangeError("Unsupported system \"undefined\". Use: nes or snes."))
  {
    assert TrimStart("") == "" && TrimEnd("") == "" && ToLower("") == "";
    assert "Unsupported system \"" + "undefined" + "\". Use: nes or snes." == "Unsupported system \"undefined\". Use: nes or snes.";
  }

  /** A null system is refused, and the message prints it as `null`. */
  lemma NullRefused()
    ensures NormalizeNintendoSystem(Null) == Err(RangeError("Unsupported system \"null\". Use: nes or snes."))
  {
    assert TrimStart("") == "" && TrimEnd("") == "" && ToLower("") == "";
    assert "Unsupported system \"" + "null" + "\". Use: nes or snes." == "Unsupported system \"null\". Use: nes or snes.";
  }

  /** Any capitalisation of a system's name, padded with white space, is accepted as that system. */
  lemma AcceptsPaddedName(before: string, core: string, after: string, s: System)
    requires AllTrimmable(before) && AllTrimmable(after)
    requires ToLower(core) == Name(s)
    ensures NormalizeNintendoSystem(Str(before + core + after)) == Ok(s)
  {
    assert |core| > 0;
    assert ToLower(core)[0] == (if 'A' <= core[0] <= 'Z' then (core[0] as int + 32) as char else core[0]);
    LowerLast(core);
    TrimPadded(before, core, after);
  }

  /** A text that is not some system's name, once trimmed and lower-cased, is refused with a RangeError. */
  lemma RejectsOtherNames(system: Argument)
    requires forall s: System :: ToLower(Trim(Text(system))) != Name(s)
    ensures NormalizeNintendoSystem(system).Err? && NormalizeNintendoSystem(system).error.RangeError?
  {
    assert ToLower(Trim(Text(system))) != Name(NES);
  }

  /** Normalisation is idempotent: a result fed back in comes out unchanged. */
  lemma NormalizeIdempotent(system: Argument)
    requires NormalizeNintendoSystem(system).Ok?
    ensures NormalizeNintendoSystem(Str(Name(NormalizeNintendoSystem(system).value))) == NormalizeNintendoSystem(system)
  {
    var s := NormalizeNintendoSystem(system).value;
    AcceptsPaddedName("", Name(s), "", s);
    assert "" + Name(s) + "" == Name(s);
  }
}
