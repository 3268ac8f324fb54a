/** Where the gateway hook's price table agrees with the TypeScript runtime's, which it mirrors. */
module PriceTables {
  import opened Common
  import opened Pricing
  import AdmissionHook

  predicate InHookTable(model: string) {
    FindExact(model, AdmissionHook.HOOK_PRICES) < |AdmissionHook.HOOK_PRICES|
  }

  /** The runtime finds a row by substring. */
  predicate Included(model: string) {
    FindIncluded(model, PRICE_PER_MTOK) < |PRICE_PER_MTOK|
  }

  /** The rows before claude-haiku are amazon's. */
  lemma NoZNoNova(s: string)
    requires 'z' !in s
    ensures !Includes(s, "amazon.nova-lite-v1:0") && !Includes(s, "amazon.nova-pro-v1:0")
  {
    forall i | 0 <= i <= |s|
      ensures !("amazon.nova-lite-v1:0" <= s[i..]) && !("amazon.nova-pro-v1:0" <= s[i..])
    {
      if i + 3 < |s| {
        assert s[i..][3] == s[i + 3];
        assert "amazon.nova-lite-v1:0"[3] == 'z' && "amazon.nova-pro-v1:0"[3] == 'z';
      }
    }
  }

  lemma {:induction false} ExactIsIncluded(model: string, table: seq<(string, Price)>)
    ensures FindExact(model, table) < |table| ==> FindIncluded(model, table) < |table|
  {
    if table != [] && table[0].0 == model {
      assert table[0].0 <= model[0..];
    } else if table != [] {
      ExactIsIncluded(model, table[1..]);
    }
  }

  /** Every row has a price that is not the default's. */
  lemma RowsAreNotDefault()
    ensures forall i :: 0 <= i < |PRICE_PER_MTOK| ==> PRICE_PER_MTOK[i].1 != DEFAULT_PRICE
  {
  }

  /** A name without a `z` that holds claude-haiku and is no row's own key is priced as claude-haiku. */
  lemma RegionalHaiku(model: string, i: nat)
    requires 'z' !in model && |model| > 30 && i <= |model| && "claude-haiku" <= model[i..]
    ensures PriceOf(model) == Some(Price(1.0, 5.0))
  {
    NoZNoNova(model);
    assert Includes(model, "claude-haiku");
    assert PRICE_PER_MTOK[1..][1..][0].0 == "claude-haiku";
    assert FindIncluded(model, PRICE_PER_MTOK[1..][1..]) == 0;
    assert FindIncluded(model, PRICE_PER_MTOK[1..]) == 1;
    assert FindIncluded(model, PRICE_PER_MTOK) == 2;
    NoExact(model);
    if Inherited(model) {
      InheritedNames(model);
    }
  }

  lemma NoExact(model: string)
    requires |model| > 30
    ensures FindExact(model, PRICE_PER_MTOK) == |PRICE_PER_MTOK|
  {
    if FindExact(model, PRICE_PER_MTOK) < |PRICE_PER_MTOK| {
      FirstExact(model, PRICE_PER_MTOK, FindExact(model, PRICE_PER_MTOK));
      assert false;
    }
  }

  lemma HaikuId(prefix: string)
    requires 'z' !in prefix
    ensures PriceOf(prefix + AdmissionHook.HAIKU_ID) == Some(Price(1.0, 5.0))
  {
    var id, before := prefix + AdmissionHook.HAIKU_ID, prefix + "anthropic.";
    assert id == before + ("claude-haiku" + "-4-5-20251001-v1:0");
    assert id[|before|..] == "claude-haiku" + "-4-5-20251001-v1:0";
    RegionalHaiku(id, |before|);
  }

  lemma HookRows(model: string)
    requires InHookTable(model)
    ensures PriceOf(model) == Some(AdmissionHook.HookPriceOf(model))
  {
    var i := FindExact(model, AdmissionHook.HOOK_PRICES);
    FirstExact(model, AdmissionHook.HOOK_PRICES, i);
    if i == 1 {
      HaikuId("eu.");
    } else if i == 2 {
      HaikuId("global.");
    } else {
      OwnRow(model, if i == 0 then 2 else i - 3);
    }
  }

  lemma RowsApart(i: nat, j: nat)
    requires i < j < |PRICE_PER_MTOK|
    ensures PRICE_PER_MTOK[i].0 != PRICE_PER_MTOK[j].0
  {
    assert "amazon.nova-lite-v1:0"[12] != "amazon.nova-pro-v1:0"[12];
  }

  lemma OwnRow(model: string, j: nat)
    requires j < |PRICE_PER_MTOK| && PRICE_PER_MTOK[j].0 == model
    ensures PriceOf(model) == Some(PRICE_PER_MTOK[j].1)
  {
    var i := FindExact(model, PRICE_PER_MTOK);
    if i < j {
      FirstExact(model, PRICE_PER_MTOK, i);
      RowsApart(i, j);
      assert false;
    }
    FirstExact(model, PRICE_PER_MTOK, j);
  }

  /** The hook lists claude-haiku and names of at least twenty characters. */
  lemma Unlisted(model: string)
    requires |model| < 20 && |model| != 12
    ensures !InHookTable(model)
  {
    if InHookTable(model) {
      FirstExact(model, AdmissionHook.HOOK_PRICES, FindExact(model, AdmissionHook.HOOK_PRICES));
    }
  }

  lemma ShortIncludesNone(model: string)
    requires |model| < 12
    ensures !Included(model)
  {
    if Included(model) {
      var i := FindIncluded(model, PRICE_PER_MTOK);
      FirstIncluded(model, PRICE_PER_MTOK, i);
      assert false;
    }
  }

  /**
   * The two price a model alike exactly when the hook lists it, or its name neither holds a key of
   * the runtime's table nor is one that every object inherits.
   */
  lemma TablesAgree(model: string)
    ensures PriceOf(model) == Some(AdmissionHook.HookPriceOf(model)) <==> InHookTable(model) || (!Included(model) && !Inherited(model))
  {
    RowsAreNotDefault();
    ExactIsIncluded(model, PRICE_PER_MTOK);
    if InHookTable(model) {
      HookRows(model);
    } else if model == "default" {
      ShortIncludesNone(model);
      if Inherited(model) {
        InheritedNames(model);
      }
    }
  }

  /** What each listed model costs, in and out, per million tokens. */
  lemma PriceList()
    ensures PriceOf("amazon.nova-lite-v1:0") == Some(Price(0.06, 0.24))
    ensures PriceOf("amazon.nova-pro-v1:0") == Some(Price(0.8, 3.2))
    ensures PriceOf("claude-haiku") == Some(Price(1.0, 5.0))
    ensures PriceOf("claude-sonnet") == Some(Price(3.0, 15.0))
    ensures PriceOf("gemini-2.5-flash") == Some(Price(0.3, 2.5))
    ensures PriceOf("gemini-2.5-pro") == Some(Price(1.25, 10.0))
  {
    OwnRow("amazon.nova-lite-v1:0", 0);
    OwnRow("amazon.nova-pro-v1:0", 1);
    OwnRow("claude-haiku", 2);
    OwnRow("claude-sonnet", 3);
    OwnRow("gemini-2.5-flash", 4);
    OwnRow("gemini-2.5-pro", 5);
  }

  /** Any other name is priced by default, unless it holds a listed one or is inherited. */
  lemma UnlistedPrice(model: string)
    requires model == "default" || (!Included(model) && !Inherited(model))
    ensures PriceOf(model) == Some(Price(0.5, 1.5))
  {
    ExactIsIncluded(model, PRICE_PER_MTOK);
    if model == "default" {
      ShortIncludesNone(model);
    }
  }

  /** For example, a sonnet is charged at the hook's default. */
  lemma SonnetDiffers()
    ensures PriceOf("claude-sonnet") == Some(Price(3.0, 15.0)) && AdmissionHook.HookPriceOf("claude-sonnet") == DEFAULT_PRICE
  {
    OwnRow("claude-sonnet", 3);
    Unlisted("claude-sonnet");
  }

  /** And a model called like an inherited name has no price at the runtime, and the default at the hook. */
  lemma ConstructorDiffers()
    ensures PriceOf("constructor").None? && AdmissionHook.HookPriceOf("constructor") == DEFAULT_PRICE
  {
    assert INHERITED[0] == "constructor";
    ExactIsIncluded("constructor", PRICE_PER_MTOK);
    ShortIncludesNone("constructor");
    Unlisted("constructor");
  }
}
