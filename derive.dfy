/** The rule list the `Lexer` derive macro assembles from an annotated enum
    (`derive_lexer_impl` in lexi-matic-derive/src/lib.rs). Attribute syntax is taken as
    already parsed; the regex escaping of `token` literals is a parameter. */
module Derive {

  import opened Wrappers

  /** One `key = value` entry of a `#[lexer(...)]` attribute. */
  datatype Meta = Meta(key: string, value: string)

  datatype Attr =
    | RegexAttr(pattern: string)    // #[regex("...")]
    | TokenAttr(literal: string)    // #[token("...")]
    | LexerAttr(items: seq<Meta>)   // #[lexer(skip = "...")] or #[lexer(more = f)]
    | OtherAttr(path: string)       // any other attribute, ignored

  datatype Variant = Variant(name: string, attrs: seq<Attr>, hasFields: bool)

  /** The item the macro is applied to; only an enum is accepted. */
  datatype Item = Item(isEnum: bool, attrs: seq<Attr>, variants: seq<Variant>)

  /** The match arm generated for one variant: its optional `more` continuation (by name)
      and whether the variant carries the matched text. */
  datatype Arm = Arm(more: Option<string>, hasFields: bool)

  /** Pattern `i` is the regex of variant `i` for `i < |arms|`; skip regexes follow. */
  datatype Rules = Rules(regexes: seq<string>, arms: seq<Arm>)

  datatype Place = OnEnum | OnVariant(index: nat)

  datatype DeriveError =
    | ExpectEnum
    | Unsupported(at: Place)   // an entry of a `lexer` attribute with the wrong key
    | Duplicated(variant: nat) // a second `regex`/`token` attribute
    | Missing(variant: nat)    // no `regex`/`token` attribute

  datatype Result<T> = Ok(value: T) | Err(error: DeriveError)

  /** The values of the entries with key `key`, in order. */
  function ItemValues(items: seq<Meta>, key: string): seq<string>
  {
    if items == [] then []
    else ItemValues(items[..|items| - 1], key)
         + (if items[|items| - 1].key == key then [items[|items| - 1].value] else [])
  }

  /** The values with key `key` over all `lexer` attributes, in order. */
  function LexerValues(attrs: seq<Attr>, key: string): seq<string>
  {
    if attrs == [] then []
    else LexerValues(attrs[..|attrs| - 1], key)
         + (if attrs[|attrs| - 1].LexerAttr? then ItemValues(attrs[|attrs| - 1].items, key) else [])
  }

  /** Every entry of every `lexer` attribute has key `key`. */
  predicate OnlyKey(attrs: seq<Attr>, key: string)
  {
    forall i, j :: 0 <= i < |attrs| && attrs[i].LexerAttr? && 0 <= j < |attrs[i].items| ==>
      attrs[i].items[j].key == key
  }

  /** The regexes given by `regex` attributes (verbatim) and `token` attributes (escaped). */
  function RuleRegexes(attrs: seq<Attr>, escape: string -> string): seq<string>
  {
    if attrs == [] then []
    else RuleRegexes(attrs[..|attrs| - 1], escape)
         + match attrs[|attrs| - 1]
           case RegexAttr(p) => [p]
           case TokenAttr(t) => [escape(t)]
           case _ => []
  }

  /** The variant an error is reported on, if it is about one variant. */
  function VariantOf(e: DeriveError): Option<nat>
  {
    match e
    case Unsupported(OnVariant(i)) => Some(i)
    case Duplicated(i) => Some(i)
    case Missing(i) => Some(i)
    case _ => None
  }

  /** The error variant `i` causes, if any, in the order the macro checks. */
  function VariantError(v: Variant, i: nat, escape: string -> string): Option<DeriveError>
  {
    if !OnlyKey(v.attrs, "more") then Some(Unsupported(OnVariant(i)))
    else if |RuleRegexes(v.attrs, escape)| > 1 then Some(Duplicated(i))
    else if |RuleRegexes(v.attrs, escape)| == 0 then Some(Missing(i))
    else None
  }

  lemma {:induction false} RuleRegexesGrow(attrs: seq<Attr>, escape: string -> string, k: nat)
    requires k <= |attrs|
    ensures |RuleRegexes(attrs[..k], escape)| <= |RuleRegexes(attrs, escape)|
    decreases |attrs| - k
  {
    if k < |attrs| {
      assert attrs[..k + 1][..k] == attrs[..k];
      RuleRegexesGrow(attrs, escape, k + 1);
    } else {
      assert attrs[..k] == attrs;
    }
  }

  /** `OnlyKey` grows one attribute at a time. */
  lemma OnlyKeySnoc(attrs: seq<Attr>, key: string, k: nat)
    requires k < |attrs| && OnlyKey(attrs[..k], key)
    ensures OnlyKey(attrs[..k + 1], key) <==>
              (attrs[k].LexerAttr? ==> forall j :: 0 <= j < |attrs[k].items| ==> attrs[k].items[j].key == key)
    ensures !OnlyKey(attrs[..k + 1], key) ==> !OnlyKey(attrs, key)
  {
    var p := attrs[..k + 1];
    assert p[k] == attrs[k];
    if !OnlyKey(p, key) {
      var i, j :| 0 <= i < |p| && p[i].LexerAttr? && 0 <= j < |p[i].items| && p[i].items[j].key != key;
      assert attrs[i] == p[i];
    }
  }

  /** One `parse_nested_meta` call over the entries of a `lexer` attribute: stop at the
      first entry with another key, otherwise collect the values in order. */
  method ParseNestedMeta(items: seq<Meta>, key: string) returns (ok: bool, values: seq<string>)
    ensures ok <==> forall j :: 0 <= j < |items| ==> items[j].key == key
    ensures ok ==> values == ItemValues(items, key)
  {
    values := [];
    var m := 0;
    while m < |items|
      invariant 0 <= m <= |items|
      invariant forall j :: 0 <= j < m ==> items[j].key == key
      invariant values == ItemValues(items[..m], key)
    {
      assert items[..m + 1][..m] == items[..m];
      if items[m].key != key {
        return false, values;
      }
      values := values + [items[m].value];
      m := m + 1;
    }
    assert items[..m] == items;
    ok := true;
  }

  /** The `parse_nested_meta` loops of `derive_lexer_impl` over the `lexer` attributes of an
      enum (key "skip") or a variant (key "more"): stop at the first entry with another key,
      otherwise collect the values in order. */
  method ParseLexerAttrs(attrs: seq<Attr>, key: string) returns (ok: bool, values: seq<string>)
    ensures ok == OnlyKey(attrs, key)
    ensures ok ==> values == LexerValues(attrs, key)
  {
    values := [];
    var k := 0;
    while k < |attrs|
      invariant 0 <= k <= |attrs|
      invariant OnlyKey(attrs[..k], key)
      invariant values == LexerValues(attrs[..k], key)
    {
      assert attrs[..k + 1][..k] == attrs[..k];
      OnlyKeySnoc(attrs, key, k);
      if attrs[k].LexerAttr? {
        var good, more := ParseNestedMeta(attrs[k].items, key);
        if !good {
          return false, values;
        }
        values := values + more;
      }
      k := k + 1;
    }
    assert attrs[..k] == attrs;
    ok := true;
  }

  /** The loop of `derive_lexer_impl` over one variant's `regex`/`token` attributes: the
      first one gives the regex (a `token` literal escaped), a second one is an error. */
  method FindRuleRegex(attrs: seq<Attr>, escape: string -> string)
    returns (regex: Option<string>, duplicated: bool)
    ensures duplicated <==> |RuleRegexes(attrs, escape)| > 1
    ensures !duplicated ==> (regex.None? <==> RuleRegexes(attrs, escape) == [])
    ensures !duplicated && regex.Some? ==> RuleRegexes(attrs, escape) == [regex.value]
  {
    regex := None;
    var k := 0;
    while k < |attrs|
      invariant 0 <= k <= |attrs|
      invariant regex.None? <==> RuleRegexes(attrs[..k], escape) == []
      invariant regex.Some? ==> RuleRegexes(attrs[..k], escape) == [regex.value]
    {
      assert attrs[..k + 1][..k] == attrs[..k];
      var rx: string;
      match attrs[k] {
        case RegexAttr(p) => rx := p;
        case TokenAttr(t) => rx := escape(t);
        case _ =>
          k := k + 1;
          continue;
      }
      if regex.None? {
        regex := Some(rx);
      } else {
        RuleRegexesGrow(attrs, escape, k + 1);
        return regex, true;
      }
      k := k + 1;
    }
    assert attrs[..k] == attrs;
    duplicated := false;
  }

  /** `derive_lexer_impl`: validate the attributes and assemble the rule list. Variant `i`
      gets pattern id `i`; the enum's skip regexes are appended after all variants. */
  method DeriveRules(item: Item, escape: string -> string) returns (r: Result<Rules>)
    ensures !item.isEnum ==> r == Err(ExpectEnum)
    ensures item.isEnum && !OnlyKey(item.attrs, "skip") ==> r == Err(Unsupported(OnEnum))
    ensures r.Ok? <==>
              item.isEnum && OnlyKey(item.attrs, "skip") &&
              forall i :: 0 <= i < |item.variants| ==> VariantError(item.variants[i], i, escape).None?
    ensures item.isEnum && OnlyKey(item.attrs, "skip") && r.Err? ==> VariantOf(r.error).Some?
    ensures r.Err? && VariantOf(r.error).Some? ==>
              var i := VariantOf(r.error).value;
              item.isEnum && OnlyKey(item.attrs, "skip") && i < |item.variants| &&
              VariantError(item.variants[i], i, escape) == Some(r.error) &&
              forall j :: 0 <= j < i ==> VariantError(item.variants[j], j, escape).None?
    ensures r.Ok? ==>
              var vs := item.variants;
              |r.value.arms| == |vs| &&
              |r.value.regexes| == |vs| + |LexerValues(item.attrs, "skip")| &&
              r.value.regexes[|vs|..] == LexerValues(item.attrs, "skip") &&
              forall i :: 0 <= i < |vs| ==>
                [r.value.regexes[i]] == RuleRegexes(vs[i].attrs, escape) &&
                r.value.arms[i] == Arm(Last(LexerValues(vs[i].attrs, "more")), vs[i].hasFields)
  {
    if !item.isEnum {
      return Err(ExpectEnum);
    }
    var skipOk, skipRegexes := ParseLexerAttrs(item.attrs, "skip");
    if !skipOk {
      return Err(Unsupported(OnEnum));
    }

    var vs := item.variants;
    var regexes: seq<string> := [];
    var arms: seq<Arm> := [];
    var i := 0;
    while i < |vs|
      invariant 0 <= i <= |vs|
      invariant |regexes| == i && |arms| == i
      invariant forall j :: 0 <= j < i ==>
                  VariantError(vs[j], j, escape).None? &&
                  [regexes[j]] == RuleRegexes(vs[j].attrs, escape) &&
                  arms[j] == Arm(Last(LexerValues(vs[j].attrs, "more")), vs[j].hasFields)
    {
      var v := vs[i];
      // Each `more = f` entry overwrites the previous one: the last one counts.
      var moreOk, mores := ParseLexerAttrs(v.attrs, "more");
      if !moreOk {
        return Err(Unsupported(OnVariant(i)));
      }
      arms := arms + [Arm(Last(mores), v.hasFields)];
      var regex, duplicated := FindRuleRegex(v.attrs, escape);
      if duplicated {
        return Err(Duplicated(i));
      }
      if regex.None? {
        return Err(Missing(i));
      }
      regexes := regexes + [regex.value];
      i := i + 1;
    }
    regexes := regexes + skipRegexes;
    assert regexes[|vs|..] == skipRegexes;
    return Ok(Rules(regexes, arms));
  }
}
