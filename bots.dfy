/** The bot registry of thales/config/bots.py: the list stored in
    `bots.yaml` and one data directory per registered bot. Names are looked
    up ignoring (ASCII) case. */
module Bots {
  import opened Common
  import opened Sorting
  import opened Identifiers

  /** `{b.lower(): b for b in names}`: a later name wins a shared lower-case
      key. */
  function LowerToReal(names: seq<string>): map<string, string>
  {
    if names == [] then map[]
    else
      var last := names[|names| - 1];
      LowerToReal(names[..|names| - 1])[Lower(last) := last]
  }

  /** The dictionary holds a key exactly when some name lowers to it, and maps
      it to one of those names. */
  lemma {:induction false} LowerToRealSpec(names: seq<string>, key: string)
    ensures key in LowerToReal(names) <==> exists x :: x in names && Lower(x) == key
    ensures key in LowerToReal(names) ==>
              LowerToReal(names)[key] in names && Lower(LowerToReal(names)[key]) == key
  {
    if names != [] {
      var init := names[..|names| - 1];
      var last := names[|names| - 1];
      LowerToRealSpec(init, key);
      assert names == init + [last];
      assert forall x :: x in names <==> x in init || x == last;
      if exists x :: x in names && Lower(x) == key {
        var x :| x in names && Lower(x) == key;
        if x != last {
          assert x in init;
        }
      }
    }
  }

  /** `validate_bot_name`: the registered spelling of `bot`, or an assertion
      failure when no registered name matches it ignoring case. */
  function ValidateBotName(registered: seq<string>, bot: string): (r: Result<string>)
  {
    var m := LowerToReal(registered);
    if Lower(bot) in m then Ok(m[Lower(bot)]) else Err(AssertionError)
  }

  lemma ValidateBotNameSpec(registered: seq<string>, bot: string)
    ensures ValidateBotName(registered, bot).Ok?
            <==> exists x :: x in registered && Lower(x) == Lower(bot)
    ensures ValidateBotName(registered, bot).Ok? ==>
              ValidateBotName(registered, bot).value in registered
              && Lower(ValidateBotName(registered, bot).value) == Lower(bot)
    ensures ValidateBotName(registered, bot).Err? ==>
              ValidateBotName(registered, bot).error == AssertionError
  {
    LowerToRealSpec(registered, Lower(bot));
  }

  /** When exactly one registered name matches ignoring case, that name is the
      result. */
  lemma ValidateUniqueMatch(registered: seq<string>, bot: string, b: string)
    requires b in registered && Lower(b) == Lower(bot)
    requires forall x :: x in registered && Lower(x) == Lower(bot) ==> x == b
    ensures ValidateBotName(registered, bot) == Ok(b)
  {
    ValidateBotNameSpec(registered, bot);
  }

  class BotRegistry {
    /** The contents of `bots.yaml`: None when the file holds nothing. */
    var listed: Option<seq<string>>
    /** The names of the directories under the bot data directory. */
    var dirs: set<string>

    constructor (listed: Option<seq<string>>, dirs: set<string>)
      ensures this.listed == listed && this.dirs == dirs
    {
      this.listed := listed;
      this.dirs := dirs;
    }

    /** `list_bots()`: the registered names, sorted; [] for an empty file. */
    function ListBots(): (r: seq<string>)
      reads this
      ensures listed.None? ==> r == []
      ensures listed.Some? ==> multiset(r) == multiset(listed.value)
      ensures SortedBy(r, StrLe)
    {
      if listed.None? || listed.value == [] then []
      else
        StrLeTotalOrder();
        SortSorted(listed.value, StrLe);
        Sort(listed.value, StrLe)
    }

    /** `register_bot(bot)`: rejects invalid names and names already registered
        ignoring case, creates the bot's directory (which must not exist yet),
        and stores the sorted list with the new name added. */
    method RegisterBot(bot: string) returns (o: Outcome)
      modifies this
      ensures !IsValidVariableName(bot) ==> o == Fail(AssertionError)
      ensures IsValidVariableName(bot) && (exists x :: x in old(ListBots()) && Lower(x) == Lower(bot))
              ==> o == Fail(AssertionError)
      ensures o.Fail? ==> listed == old(listed) && dirs == old(dirs)
      ensures o.Pass? <==>
                IsValidVariableName(bot)
                && (forall x :: x in old(ListBots()) ==> Lower(x) != Lower(bot))
                && bot !in old(dirs)
      ensures o.Pass? ==>
                dirs == old(dirs) + {bot} && listed == Some(Sort(old(ListBots()) + [bot], StrLe))
      ensures o.Fail? && IsValidVariableName(bot)
              && (forall x :: x in old(ListBots()) ==> Lower(x) != Lower(bot))
              ==> o == Fail(FileExistsError)
    {
      if !IsValidVariableName(bot) {
        return Fail(AssertionError);
      }
      var existing := ListBots();
      var lowered := set x | x in existing :: Lower(x);
      if Lower(bot) in lowered {
        return Fail(AssertionError);
      }
      if bot in dirs {
        return Fail(FileExistsError);
      }
      dirs := dirs + {bot};
      listed := Some(Sort(existing + [bot], StrLe));
      o := Pass;
    }
  }

  /** After a successful registration the new list is sorted and looking up
      any case variant of the new name gives back the name as registered. */
  lemma RegisteredIsFound(existing: seq<string>, bot: string, variant: string)
    requires forall x :: x in existing ==> Lower(x) != Lower(bot)
    requires Lower(variant) == Lower(bot)
    ensures SortedBy(Sort(existing + [bot], StrLe), StrLe)
    ensures ValidateBotName(Sort(existing + [bot], StrLe), variant) == Ok(bot)
  {
    var updated := Sort(existing + [bot], StrLe);
    StrLeTotalOrder();
    SortSorted(existing + [bot], StrLe);
    SameElements(existing + [bot], updated);
    assert bot in existing + [bot];
    forall x | x in updated && Lower(x) == Lower(variant) ensures x == bot {
      assert x in existing + [bot];
    }
    ValidateUniqueMatch(updated, variant, bot);
  }
}
