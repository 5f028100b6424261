/**
  The allow-list: `ADMINS` is read once from the `ADMIN_IDS` environment
  variable, a comma-separated list of Telegram user ids in which blank
  segments are ignored; every handler checks its sender against it.
 */
module Admins {
  import opened Wrappers
  import opened Os
  import opened PyStr

  type UserId = int

  const AdminIdsVar := "ADMIN_IDS"
  const DefaultAdminIds := "53962232"

  /** The segments that are not blank after `strip()`, in their original order. */
  function NonBlank(segments: seq<string>): (r: seq<string>)
    ensures |r| <= |segments|
    ensures forall i | 0 <= i < |r| :: r[i] in segments && Strip(r[i]) != []
    ensures forall i | 0 <= i < |segments| && Strip(segments[i]) != [] :: segments[i] in r
  {
    if segments == [] then []
    else
      var tail := NonBlank(segments[1..]);
      assert forall i | 1 <= i < |segments| :: segments[i] == segments[1..][i - 1];
      if Strip(segments[0]) != [] then [segments[0]] + tail else tail
  }

  /** `int(x)` on every segment: `None` as soon as one of them is not an integer. */
  function ParseAll(segments: seq<string>): (r: Option<seq<UserId>>)
    ensures r.Some? ==> |r.value| == |segments|
    ensures r.Some? ==> forall i | 0 <= i < |segments| :: ParseInt(segments[i]) == Some(r.value[i])
    ensures r.None? ==> exists i | 0 <= i < |segments| :: ParseInt(segments[i]).None?
  {
    if segments == [] then Some([])
    else
      match ParseInt(segments[0])
      case None => None
      case Some(id) =>
        match ParseAll(segments[1..])
        case None => None
        case Some(ids) => Some([id] + ids)
  }

  /**
    `[int(x) for x in raw.split(",") if x.strip()]`; `None` stands for the
    `ValueError` that stops the program at start-up. Every id comes from a
    non-blank segment, and the error comes from a non-blank segment that
    is not an integer; the error happens exactly when such a segment exists.
   */
  function ParseAdmins(raw: string): (r: Option<seq<UserId>>)
    ensures r.Some? ==> forall i | 0 <= i < |r.value| ::
      exists seg | seg in Split(raw, ',') :: Strip(seg) != [] && ParseInt(seg) == Some(r.value[i])
    ensures r.None? <==> exists seg | seg in Split(raw, ',') :: Strip(seg) != [] && ParseInt(seg).None?
  {
    var segments := Split(raw, ',');
    KeptIdsParse(segments);
    FailsIffUnparsable(segments);
    ParseAll(NonBlank(segments))
  }

  /** Every id parsed from the non-blank segments is `int()` of one of them. */
  lemma KeptIdsParse(segments: seq<string>)
    ensures var r := ParseAll(NonBlank(segments));
      r.Some? ==> forall i | 0 <= i < |r.value| ::
        exists seg | seg in segments :: Strip(seg) != [] && ParseInt(seg) == Some(r.value[i])
  {
    var kept := NonBlank(segments);
    var r := ParseAll(kept);
    if r.Some? {
      forall i | 0 <= i < |r.value|
        ensures exists seg | seg in segments :: Strip(seg) != [] && ParseInt(seg) == Some(r.value[i])
      {
        assert kept[i] in segments && Strip(kept[i]) != [] && ParseInt(kept[i]) == Some(r.value[i]);
      }
    }
  }

  /** Parsing the non-blank segments fails exactly when one of them is not an integer. */
  lemma FailsIffUnparsable(segments: seq<string>)
    ensures ParseAll(NonBlank(segments)).None? <==>
      exists seg | seg in segments :: Strip(seg) != [] && ParseInt(seg).None?
  {
    var kept := NonBlank(segments);
    if ParseAll(kept).None? {
      var i :| 0 <= i < |kept| && ParseInt(kept[i]).None?;
      assert kept[i] in segments && Strip(kept[i]) != [];
    }
    if exists seg | seg in segments :: Strip(seg) != [] && ParseInt(seg).None? {
      var seg :| seg in segments && Strip(seg) != [] && ParseInt(seg).None?;
      UnparsableSegmentFails(segments, seg);
    }
  }

  /** A non-blank segment that is not an integer makes the whole list fail. */
  lemma UnparsableSegmentFails(segments: seq<string>, seg: string)
    requires seg in segments && Strip(seg) != [] && ParseInt(seg).None?
    ensures ParseAll(NonBlank(segments)).None?
  {
    var kept := NonBlank(segments);
    assert seg in kept;
    var j :| 0 <= j < |kept| && kept[j] == seg;
  }

  /** `ADMINS`: `ADMIN_IDS` when it is set, the built-in `[53962232]` otherwise. */
  function AdminsFromEnv(env: Env): (r: Option<seq<UserId>>)
    ensures AdminIdsVar in env ==> r == ParseAdmins(env[AdminIdsVar])
    ensures AdminIdsVar !in env ==> r == Some([53962232])
  {
    DefaultAdmins();
    ParseAdmins(GetEnvOr(env, AdminIdsVar, DefaultAdminIds))
  }

  /** `is_admin(user_id)`: some position of `ADMINS` holds the id. */
  predicate IsAdmin(admins: seq<UserId>, u: UserId)
    ensures IsAdmin(admins, u) <==> exists i | 0 <= i < |admins| :: admins[i] == u
  {
    u in admins
  }

  /**
    A sender is an admin exactly when some non-blank segment of the
    comma-separated list parses to its id: blank segments contribute nothing.
   */
  lemma AdminIff(raw: string, admins: seq<UserId>, u: UserId)
    requires ParseAdmins(raw) == Some(admins)
    ensures IsAdmin(admins, u) <==>
      exists seg | seg in Split(raw, ',') :: Strip(seg) != [] && ParseInt(seg) == Some(u)
  {
    if IsAdmin(admins, u) {
      var i :| 0 <= i < |admins| && admins[i] == u;
    }
    if exists seg | seg in Split(raw, ',') :: Strip(seg) != [] && ParseInt(seg) == Some(u) {
      var seg :| seg in Split(raw, ',') && Strip(seg) != [] && ParseInt(seg) == Some(u);
      SegmentMakesAdmin(raw, admins, seg, u);
    }
  }

  lemma SegmentMakesAdmin(raw: string, admins: seq<UserId>, seg: string, u: UserId)
    requires ParseAdmins(raw) == Some(admins)
    requires seg in Split(raw, ',') && Strip(seg) != [] && ParseInt(seg) == Some(u)
    ensures IsAdmin(admins, u)
  {
    var segments := Split(raw, ',');
    var kept := NonBlank(segments);
    var i :| 0 <= i < |segments| && segments[i] == seg;
    assert seg in kept;
    var j :| 0 <= j < |kept| && kept[j] == seg;
    assert ParseInt(kept[j]) == Some(admins[j]);
  }

  /**
    A blank segment between two commas changes nothing: `"1, ,2"` names the
    same admins as `"1,2"`.
   */
  lemma BlankSegmentDropped(a: string, blank: string, c: string)
    requires AllSpace(blank)
    ensures ParseAdmins(a + [','] + blank + [','] + c) == ParseAdmins(a + [','] + c)
  {
    BlankSegmentKept(a, blank, c);
  }

  lemma BlankSegmentKept(a: string, blank: string, c: string)
    requires AllSpace(blank)
    ensures NonBlank(Split(a + [','] + blank + [','] + c, ',')) == NonBlank(Split(a + [','] + c, ','))
  {
    var sa, sb, sc := Split(a, ','), Split(blank, ','), Split(c, ',');
    SplitThree(a, blank, c, ',');
    NonBlankAppend(sa, sb + sc);
    NonBlankAppend(sb, sc);
    BlankSplitsToNothing(blank, ',');
    assert NonBlank(sb + sc) == NonBlank(sc);
    NonBlankAppend(sa, sc);
    SplitAppend(a, c, ',');
  }

  lemma SplitThree(a: string, b: string, c: string, sep: char)
    ensures Split(a + [sep] + b + [sep] + c, sep) == Split(a, sep) + (Split(b, sep) + Split(c, sep))
  {
    assert a + [sep] + b + [sep] + c == a + [sep] + (b + [sep] + c);
    SplitAppend(a, b + [sep] + c, sep);
    SplitAppend(b, c, sep);
  }

  lemma {:induction false} SplitAppend(a: string, b: string, sep: char)
    ensures Split(a + [sep] + b, sep) == Split(a, sep) + Split(b, sep)
  {
    if a == [] {
      assert a + [sep] + b == [sep] + b;
      assert ([sep] + b)[1..] == b;
    } else {
      assert (a + [sep] + b)[1..] == a[1..] + [sep] + b;
      SplitAppend(a[1..], b, sep);
    }
  }

  lemma {:induction false} NonBlankAppend(x: seq<string>, y: seq<string>)
    ensures NonBlank(x + y) == NonBlank(x) + NonBlank(y)
  {
    if x == [] {
      assert x + y == y;
    } else {
      assert (x + y)[0] == x[0];
      assert (x + y)[1..] == x[1..] + y;
      NonBlankAppend(x[1..], y);
    }
  }

  lemma {:induction false} BlankSplitsToNothing(blank: string, sep: char)
    requires AllSpace(blank)
    ensures NonBlank(Split(blank, sep)) == []
  {
    if blank != [] {
      var rest := Split(blank[1..], sep);
      BlankSplitsToNothing(blank[1..], sep);
      assert NonBlank(rest) == NonBlank(rest[1..]);
      if blank[0] != sep {
        var first := [blank[0]] + rest[0];
        assert AllSpace(first) by {
          assert AllSpace(rest[0]);
        }
        assert Split(blank, sep)[1..] == rest[1..];
      } else {
        assert Split(blank, sep)[1..] == rest;
      }
    }
  }

  /** The built-in default list names exactly one admin. */
  lemma DefaultAdmins()
    ensures ParseAdmins(DefaultAdminIds) == Some([53962232])
  {
    var shown := ShowInt(53962232);
    ParseShowRoundTrip(53962232);
    assert AllDigits(shown) && shown != [];
    assert ',' !in shown;
    SingleAdmin(shown, 53962232);
    ShowDefaultId();
  }

  /** A list with one integer and no comma names exactly that admin. */
  lemma SingleAdmin(raw: string, id: UserId)
    requires ParseInt(raw) == Some(id) && ',' !in raw
    ensures ParseAdmins(raw) == Some([id])
  {
    SplitWithoutSeparator(raw, ',');
    assert Strip(raw) != [];
    assert [raw][1..] == [];
    assert NonBlank([raw]) == [raw];
    assert ParseAll([]) == Some([]);
    assert ParseAll([raw]) == Some([id] + []);
    assert [id] + [] == [id];
    assert ParseAdmins(raw) == ParseAll(NonBlank([raw]));
  }

  lemma ShowDefaultId()
    ensures ShowInt(53962232) == "53962232"
  {
    assert ShowNat(5) == "5";
    assert ShowNat(53) == "53";
    assert ShowNat(539) == "539";
    assert ShowNat(5396) == "5396";
    assert ShowNat(53962) == "53962";
    assert ShowNat(539622) == "539622";
    assert ShowNat(5396223) == "5396223";
  }

  /** A string without the separator splits into itself alone. */
  lemma {:induction false} SplitWithoutSeparator(s: string, sep: char)
    requires sep !in s
    ensures Split(s, sep) == [s]
  {
    if s != [] {
      assert sep !in s[1..];
      SplitWithoutSeparator(s[1..], sep);
    }
  }
}
