/**
 * `resolveConfig(url, options)`: turns the command line into the launch
 * configuration. The url falls back to the project page, the two flags fall
 * back to false, and `--height` / `--width` are read as numbers when given.
 */
module Config {
  import opened Wrappers
  import Decimal

  /** The fallback address when no url (or an empty one) is given. */
  const DefaultUrl: string := "https://github.com/antfu/broz#readme"

  /**
   * The value the argument parser hands over for `--height` or `--width`:
   * the text after the option, or a whole number when the parser has already
   * converted it.
   */
  datatype Arg = Text(text: string) | Whole(n: nat)

  /** `Number(value)`: decimal numerals are read exactly; any other text is kept, its value not modelled. */
  datatype Number = Num(value: nat) | NonDecimal(text: string)

  /** `Partial<CommandOptions>`: every option may be absent. */
  datatype Options = Options(top: Option<bool>, height: Option<Arg>, width: Option<Arg>, frame: Option<bool>)

  /** `CommandOptions` after resolution. */
  datatype LaunchConfig = LaunchConfig(url: string, top: bool, height: Option<Number>, width: Option<Number>, frame: bool)

  /** JavaScript truthiness of an optional string: absent and "" are falsy. */
  predicate TruthyText(s: Option<string>) {
    s.Some? && s.value != ""
  }

  /** JavaScript truthiness of an optional number-or-text argument: absent, "" and 0 are falsy. */
  predicate TruthyArg(a: Option<Arg>) {
    a.Some? && match a.value
      case Text(t) => t != ""
      case Whole(n) => n != 0
  }

  /** A boolean flag defaulted to false when absent (src/config.ts:6, 9). */
  function FlagOrFalse(flag: Option<bool>): bool {
    flag.Some? && flag.value
  }

  /** `Number(value)` on what the parser handed over. */
  function ToNumber(a: Arg): Number {
    match a
    case Whole(n) => Num(n)
    case Text(t) => if Decimal.IsDigits(t) then Num(Decimal.Parse(t)) else NonDecimal(t)
  }

  /** A size option: converted to a number when truthy, absent otherwise (src/config.ts:7-8). */
  function OptionalNumber(a: Option<Arg>): (r: Option<Number>)
    ensures r.None? <==> !TruthyArg(a)
    ensures r.Some? ==> r.value == ToNumber(a.value)
  {
    if TruthyArg(a) then Some(ToNumber(a.value)) else None
  }

  function ResolveConfig(url: Option<string>, options: Options): (c: LaunchConfig)
    ensures |c.url| > 0
    ensures TruthyText(url) ==> c.url == url.value
    ensures !TruthyText(url) ==> c.url == DefaultUrl
    ensures c.top <==> options.top == Some(true)
    ensures c.frame <==> options.frame == Some(true)
    ensures c.height == OptionalNumber(options.height)
    ensures c.width == OptionalNumber(options.width)
  {
    LaunchConfig(
      url := if TruthyText(url) then url.value else DefaultUrl,
      top := FlagOrFalse(options.top),
      height := OptionalNumber(options.height),
      width := OptionalNumber(options.width),
      frame := FlagOrFalse(options.frame))
  }

  /**
   * A size typed as a decimal numeral resolves to that number, and the other
   * axis does not depend on it.
   */
  lemma {:induction false} NumeralOptionResolves(url: Option<string>, options: Options, n: nat)
    requires options.height == Some(Text(Decimal.Show(n)))
    ensures ResolveConfig(url, options).height == Some(Num(n))
    ensures ResolveConfig(url, options).width == ResolveConfig(url, options.(height := None)).width
  {
    Decimal.ParseShow(n);
    Decimal.ShowCanonical(n);
  }

  /** The resolution spelled out for two command lines: none at all, and "example.com --top --width 800". */
  lemma Examples()
    ensures ResolveConfig(None, Options(None, None, None, None))
         == LaunchConfig(DefaultUrl, false, None, None, false)
    ensures ResolveConfig(Some("example.com"), Options(Some(true), None, Some(Text("800")), None))
         == LaunchConfig("example.com", true, None, Some(Num(800)), false)
  {
    assert Decimal.Parse("800") == 800 by {
      assert "800"[..2] == "80" && "80"[..1] == "8" && "8"[..0] == [];
    }
  }
}
