/** The punishment summary of a player profile (`get_penalties_message`). */
module Penalties {

  import opened Wrappers
  import opened Text
  import opened Locale

  /** The four penalty counters of a profile's "penalty_count" entry. */
  datatype Counts = Counts(kicks: int, punishes: int, tempbans: int, permabans: int)

  /** `penalty_count.get(key, 0)`. */
  function CountOf(penaltyCount: map<string, int>, key: string): int {
    if key in penaltyCount then penaltyCount[key] else 0
  }

  /** The counters read from the profile; a missing "penalty_count" entry or a
      missing key counts as zero. */
  function CountsOf(penaltyCount: Option<map<string, int>>): (c: Counts)
    ensures penaltyCount.None? ==> c == Counts(0, 0, 0, 0)
    ensures penaltyCount.Some? ==>
      && c.kicks == CountOf(penaltyCount.value, "KICK")
      && c.punishes == CountOf(penaltyCount.value, "PUNISH")
      && c.tempbans == CountOf(penaltyCount.value, "TEMPBAN")
      && c.permabans == CountOf(penaltyCount.value, "PERMABAN")
  {
    var m := if penaltyCount.Some? then penaltyCount.value else map[];
    Counts(CountOf(m, "KICK"), CountOf(m, "PUNISH"), CountOf(m, "TEMPBAN"), CountOf(m, "PERMABAN"))
  }

  predicate NoPenalty(c: Counts) {
    c.kicks == 0 && c.punishes == 0 && c.tempbans == 0 && c.permabans == 0
  }

  /** "<n> <word>" for a positive count. */
  function Item(n: int, word: string): string
    requires n > 0
  {
    NatToString(n) + " " + word
  }

  /** The listed categories: the positive counts, in the order punishes,
      kicks, tempbans, permabans; the tempbans item starts a new line when
      both punishes and kicks precede it. */
  function Items(c: Counts): seq<string> {
    PunishItems(c) + KickItems(c) + TempbanItems(c) + PermabanItems(c)
  }

  function PunishItems(c: Counts): seq<string> {
    if c.punishes > 0 then [Item(c.punishes, "punishes")] else []
  }

  function KickItems(c: Counts): seq<string> {
    if c.kicks > 0 then [Item(c.kicks, "kicks")] else []
  }

  function TempbanItems(c: Counts): seq<string> {
    if c.tempbans > 0
    then [(if c.punishes > 0 && c.kicks > 0 then "\n" else "") + Item(c.tempbans, "tempbans")]
    else []
  }

  function PermabanItems(c: Counts): seq<string> {
    if c.permabans > 0 then [Item(c.permabans, "permabans")] else []
  }

  /** What `get_penalties_message` returns: the locale's "nopunish" phrase
      when every counter is zero, the listed categories separated by ", "
      otherwise. */
  function PenaltiesText(c: Counts, lang: Lang): (r: string)
    ensures Positive(c) ==> |r| > 0 && IsDigit(r[0])
    ensures !NoPenalty(c) && !Positive(c) ==> r == ""
  {
    if NoPenalty(c) then Tr(NoPunish, lang)
    else
      FirstItemDigit(c);
      if Positive(c) then JoinHead(", ", Items(c)); Join(", ", Items(c))
      else Join(", ", Items(c))
  }

  /** Some counter is positive, so some category is listed. */
  predicate Positive(c: Counts) {
    c.kicks > 0 || c.punishes > 0 || c.tempbans > 0 || c.permabans > 0
  }

  /** The first listed category opens with a digit of its count: the line
      break only comes after two other categories. */
  lemma FirstItemDigit(c: Counts)
    ensures |Items(c)| > 0 <==> Positive(c)
    ensures |Items(c)| > 0 ==> |Items(c)[0]| > 0 && IsDigit(Items(c)[0][0])
  {
    if c.punishes > 0 { ItemShape(c.punishes, "punishes"); }
    else if c.kicks > 0 { ItemShape(c.kicks, "kicks"); }
    else if c.tempbans > 0 {
      ItemShape(c.tempbans, "tempbans");
      assert "" + Item(c.tempbans, "tempbans") == Item(c.tempbans, "tempbans");
    }
    else if c.permabans > 0 { ItemShape(c.permabans, "permabans"); }
  }

  /** `get_penalties_message`, appending to the message as the plugin does. */
  method GetPenaltiesMessage(penaltyCount: Option<map<string, int>>, lang: Lang) returns (message: string)
    ensures message == PenaltiesText(CountsOf(penaltyCount), lang)
  {
    var counts := CountsOf(penaltyCount);
    var kicks, punishes, tempbans, permabans := counts.kicks, counts.punishes, counts.tempbans, counts.permabans;

    message := "";
    if kicks == 0 && punishes == 0 && tempbans == 0 && permabans == 0 {
      message := message + Tr(NoPunish, lang);
    } else {
      ghost var items: seq<string> := [];
      if punishes > 0 {
        AppendItem(message, items, Item(punishes, "punishes"));
        message := message + Item(punishes, "punishes");
        items := items + [Item(punishes, "punishes")];
      }
      assert items == PunishItems(counts);
      if kicks > 0 {
        AppendItem(message, items, Item(kicks, "kicks"));
        if punishes > 0 {
          message := message + ", ";
        }
        message := message + Item(kicks, "kicks");
        items := items + [Item(kicks, "kicks")];
      }
      assert items == PunishItems(counts) + KickItems(counts);
      if tempbans > 0 {
        if punishes > 0 && kicks > 0 {
          AppendBrokenItem(message, items, Item(tempbans, "tempbans"));
          items := items + ["\n" + Item(tempbans, "tempbans")];
        } else {
          AppendItem(message, items, Item(tempbans, "tempbans"));
          assert "" + Item(tempbans, "tempbans") == Item(tempbans, "tempbans");
          items := items + [Item(tempbans, "tempbans")];
        }
        if punishes > 0 || kicks > 0 {
          message := message + ", ";
        }
        if punishes > 0 && kicks > 0 {
          message := message + "\n";
        }
        message := message + Item(tempbans, "tempbans");
      }
      assert items == PunishItems(counts) + KickItems(counts) + TempbanItems(counts);
      if permabans > 0 {
        AppendItem(message, items, Item(permabans, "permabans"));
        if punishes > 0 || kicks > 0 || tempbans > 0 {
          message := message + ", ";
        }
        message := message + Item(permabans, "permabans");
        items := items + [Item(permabans, "permabans")];
      }
      assert items == Items(counts);
    }
  }

  lemma AppendItem(message: string, items: seq<string>, x: string)
    requires message == Join(", ", items)
    ensures (if |items| > 0 then message + ", " else message) + x == Join(", ", items + [x])
  {
    JoinSnoc(", ", items, x);
  }

  lemma AppendBrokenItem(message: string, items: seq<string>, x: string)
    requires message == Join(", ", items) && |items| > 0
    ensures message + ", " + "\n" + x == Join(", ", items + ["\n" + x])
  {
    JoinSnoc(", ", items, "\n" + x);
  }

  /** A listed category starts with its count, or with the line break before
      it. */
  predicate StartsItem(s: string) {
    |s| > 0 && (IsDigit(s[0]) || s[0] == '\n')
  }

  predicate AllStartItems(parts: seq<string>) {
    forall i :: 0 <= i < |parts| ==> StartsItem(parts[i])
  }

  predicate AllFree(parts: seq<string>, c: char) {
    forall i :: 0 <= i < |parts| ==> Free(parts[i], c)
  }

  lemma AllStartItemsConcat(a: seq<string>, b: seq<string>)
    requires AllStartItems(a) && AllStartItems(b)
    ensures AllStartItems(a + b)
  {
    forall i | 0 <= i < |a + b|
      ensures StartsItem((a + b)[i])
    {
      if i >= |a| {
        assert (a + b)[i] == b[i - |a|];
      }
    }
  }

  lemma AllFreeConcat(a: seq<string>, b: seq<string>, c: char)
    requires AllFree(a, c) && AllFree(b, c)
    ensures AllFree(a + b, c)
  {
    forall i | 0 <= i < |a + b|
      ensures Free((a + b)[i], c)
    {
      if i >= |a| {
        assert (a + b)[i] == b[i - |a|];
      }
    }
  }

  lemma ItemShape(n: int, word: string)
    requires n > 0
    ensures StartsItem(Item(n, word)) && IsDigit(Item(n, word)[0])
    ensures Free(word, '\n') ==> Free(Item(n, word), '\n')
  {
    NatToStringDigits(n);
    assert Item(n, word)[0] == NatToString(n)[0];
    FreeConcat(NatToString(n) + " ", word, '\n');
    FreeConcat(NatToString(n), " ", '\n');
  }

  lemma ItemsStart(c: Counts)
    ensures AllStartItems(Items(c))
  {
    if c.punishes > 0 { ItemShape(c.punishes, "punishes"); }
    if c.kicks > 0 { ItemShape(c.kicks, "kicks"); }
    if c.tempbans > 0 {
      ItemShape(c.tempbans, "tempbans");
      assert ("\n" + Item(c.tempbans, "tempbans"))[0] == '\n';
    }
    if c.permabans > 0 { ItemShape(c.permabans, "permabans"); }
    AllStartItemsConcat(PunishItems(c), KickItems(c));
    AllStartItemsConcat(PunishItems(c) + KickItems(c), TempbanItems(c));
    AllStartItemsConcat(PunishItems(c) + KickItems(c) + TempbanItems(c), PermabanItems(c));
  }

  /** The summary is the "nopunish" phrase exactly when every counter is zero;
      a single positive counter is always listed by number. */
  lemma PenaltiesNoPunishIff(c: Counts, lang: Lang)
    ensures PenaltiesText(c, lang) == Tr(NoPunish, lang) <==> NoPenalty(c)
  {
    if !NoPenalty(c) {
      NoPunishStartsWithLetter(lang);
      if |Items(c)| == 0 {
        assert PenaltiesText(c, lang) == "";
      } else {
        ItemsStart(c);
        assert StartsItem(Items(c)[0]);
        JoinHead(", ", Items(c));
      }
    }
  }

  /** The summary breaks its line exactly when punishes, kicks and tempbans
      are all listed. */
  lemma PenaltiesLineBreak(c: Counts, lang: Lang)
    ensures !Free(PenaltiesText(c, lang), '\n') <==> c.punishes > 0 && c.kicks > 0 && c.tempbans > 0
  {
    if NoPenalty(c) {
      NoPunishOneLine(lang);
    } else {
      JoinFree(", ", Items(c), '\n');
      if c.punishes > 0 && c.kicks > 0 && c.tempbans > 0 {
        ItemsBreak(c);
      } else {
        ItemsOneLine(c);
      }
    }
  }

  lemma ItemsBreak(c: Counts)
    requires c.punishes > 0 && c.kicks > 0 && c.tempbans > 0
    ensures |Items(c)| > 2 && !Free(Items(c)[2], '\n')
  {
    assert Items(c)[2] == "\n" + Item(c.tempbans, "tempbans");
    assert Items(c)[2][0] == '\n';
  }

  lemma ItemsOneLine(c: Counts)
    requires !(c.punishes > 0 && c.kicks > 0 && c.tempbans > 0)
    ensures AllFree(Items(c), '\n')
  {
    if c.punishes > 0 { ItemShape(c.punishes, "punishes"); }
    if c.kicks > 0 { ItemShape(c.kicks, "kicks"); }
    if c.tempbans > 0 {
      ItemShape(c.tempbans, "tempbans");
      assert "" + Item(c.tempbans, "tempbans") == Item(c.tempbans, "tempbans");
    }
    if c.permabans > 0 { ItemShape(c.permabans, "permabans"); }
    AllFreeConcat(PunishItems(c), KickItems(c), '\n');
    AllFreeConcat(PunishItems(c) + KickItems(c), TempbanItems(c), '\n');
    AllFreeConcat(PunishItems(c) + KickItems(c) + TempbanItems(c), PermabanItems(c), '\n');
  }

  /** Missing keys count as zero: two kicks and a tempban, nothing else. */
  lemma PenaltiesExampleKicks(lang: Lang)
    ensures CountsOf(Some(map["KICK" := 2, "TEMPBAN" := 1])) == Counts(2, 0, 1, 0)
    ensures PenaltiesText(Counts(2, 0, 1, 0), lang) == "2 kicks, 1 tempbans"
  {
    ExampleKicksCounts();
    var c := Counts(2, 0, 1, 0);
    assert PenaltiesText(c, lang) == Join(", ", Items(c));
    ExampleKicksItems();
    JoinCons(", ", "2 kicks", ["1 tempbans"]);
  }

  lemma ExampleKicksCounts()
    ensures CountsOf(Some(map["KICK" := 2, "TEMPBAN" := 1])) == Counts(2, 0, 1, 0)
  {
  }

  lemma ExampleKicksItems()
    ensures Items(Counts(2, 0, 1, 0)) == ["2 kicks", "1 tempbans"]
  {
    assert NatToString(2) == "2" && NatToString(1) == "1";
    assert Item(2, "kicks") == "2 kicks";
    assert Item(1, "tempbans") == "1 tempbans";
    assert "" + Item(1, "tempbans") == "1 tempbans";
  }

  /** With punishes and kicks listed the tempbans go to a new line. */
  lemma PenaltiesExampleBreak(lang: Lang)
    ensures PenaltiesText(Counts(1, 1, 1, 0), lang) == "1 punishes, 1 kicks, \n1 tempbans"
  {
    var c := Counts(1, 1, 1, 0);
    assert PenaltiesText(c, lang) == Join(", ", Items(c));
    ExampleBreakItems();
    JoinCons(", ", "1 kicks", ["\n1 tempbans"]);
    JoinCons(", ", "1 punishes", ["1 kicks", "\n1 tempbans"]);
    assert Join(", ", ["\n1 tempbans"]) == "\n1 tempbans";
    assert Join(", ", Items(c)) == "1 punishes" + ", " + ("1 kicks" + ", " + "\n1 tempbans");
    ExampleBreakLiteral("1 punishes" + ", " + ("1 kicks" + ", " + "\n1 tempbans"));
  }

  lemma ExampleBreakLiteral(s: string)
    requires s == "1 punishes" + ", " + ("1 kicks" + ", " + "\n1 tempbans")
    ensures s == "1 punishes, 1 kicks, \n1 tempbans"
  {
  }

  lemma ExampleBreakItems()
    ensures Items(Counts(1, 1, 1, 0)) == ["1 punishes", "1 kicks", "\n1 tempbans"]
  {
    assert NatToString(1) == "1";
    assert Item(1, "punishes") == "1 punishes";
    assert Item(1, "kicks") == "1 kicks";
    assert Item(1, "tempbans") == "1 tempbans";
    assert "\n" + "1 tempbans" == "\n1 tempbans";
  }
}
