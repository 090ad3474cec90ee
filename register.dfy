/** Restaurant registration (app/api/auth/register/route.ts): the slug built
    from the restaurant's name, and the order of the handler's checks. The
    e-mail validator, the sign-up service and the store's write results are
    parameters. Of the clean-up after a failed write, only the removal of
    the restaurant row is modelled; deleting the sign-up's user is not. */
module Register {
  import opened Common

  /** `toLowerCase` on ASCII letters; every other character is kept. */
  function LowerChar(c: char): (l: char)
    ensures 'A' <= c <= 'Z' ==> 'a' <= l <= 'z'
    ensures !('A' <= c <= 'Z') ==> l == c
  {
    if 'A' <= c <= 'Z' then (c as int - 'A' as int + 'a' as int) as char else c
  }

  function LowerAscii(s: string): (r: string)
    ensures |r| == |s| && forall i :: 0 <= i < |s| ==> r[i] == LowerChar(s[i])
  {
    if s == [] then [] else [LowerChar(s[0])] + LowerAscii(s[1..])
  }

  /** The characters JavaScript's `\s` and `trim` treat as white space. */
  predicate IsSpace(c: char)
  {
    c == '\t' || c == '\n' || c == '\U{000B}' || c == '\U{000C}' || c == '\r' || c == ' '
    || c == '\U{00A0}' || c == '\U{1680}' || ('\U{2000}' <= c <= '\U{200A}')
    || c == '\U{2028}' || c == '\U{2029}' || c == '\U{202F}' || c == '\U{205F}'
    || c == '\U{3000}' || c == '\U{FEFF}'
  }

  /** The characters `[^a-z0-9\s-]` does not remove. */
  predicate IsKept(c: char)
  {
    ('a' <= c <= 'z') || IsDigit(c) || IsSpace(c) || c == '-'
  }

  /** A slug character: a lowercase ASCII letter, a digit or a hyphen. */
  predicate IsSlugChar(c: char)
  {
    ('a' <= c <= 'z') || IsDigit(c) || c == '-'
  }

  /** `.replace(/[^a-z0-9\s-]/g, '')`. */
  function KeepSlugChars(s: string): (r: string)
  {
    if s == [] then [] else (if IsKept(s[0]) then [s[0]] else []) + KeepSlugChars(s[1..])
  }

  /** Drop a leading run of white space. */
  function DropSpaces(s: string): (r: string)
    ensures |r| <= |s| && (r != [] ==> !IsSpace(r[0]))
  {
    if s != [] && IsSpace(s[0]) then DropSpaces(s[1..]) else s
  }

  /** `.replace(/\s+/g, '-')`: each maximal run of white space becomes one
      hyphen. */
  function CollapseSpaces(s: string): (r: string)
    decreases |s|
  {
    if s == [] then []
    else if IsSpace(s[0]) then "-" + CollapseSpaces(DropSpaces(s[1..]))
    else [s[0]] + CollapseSpaces(s[1..])
  }

  /** `.trim()`: drop leading and trailing white space. */
  function Trim(s: string): string
  {
    TrimEnd(DropSpaces(s))
  }

  function TrimEnd(s: string): string
  {
    if s != [] && IsSpace(s[|s| - 1]) then TrimEnd(s[..|s| - 1]) else s
  }

  /** The slug of a restaurant name: it holds only lowercase ASCII letters,
      digits and hyphens. */
  function Slug(name: string): (slug: string)
    ensures forall c :: c in slug ==> IsSlugChar(c)
  {
    var kept := KeepSlugChars(LowerAscii(name));
    var collapsed := CollapseSpaces(kept);
    KeptChars(LowerAscii(name));
    CollapsedChars(kept);
    assert NoSpaces(collapsed);
    TrimIsNoOp(collapsed);
    Trim(collapsed)
  }

  predicate NoSpaces(s: string)
  {
    forall c :: c in s ==> !IsSpace(c)
  }

  /** `trim` has nothing left to remove: no white space survives the
      collapse. */
  lemma TrimIsNoOp(s: string)
    requires NoSpaces(s)
    ensures Trim(s) == s
  {
    if s != [] {
      assert s[|s| - 1] in s;
    }
  }

  /** The filter keeps only characters of its class. */
  lemma {:induction false} KeptChars(s: string)
    ensures forall c :: c in KeepSlugChars(s) ==> IsKept(c)
  {
    if s != [] {
      KeptChars(s[1..]);
    }
  }

  lemma {:induction false} DropSpacesKeeps(s: string)
    ensures forall c :: c in DropSpaces(s) ==> c in s
  {
    if s != [] && IsSpace(s[0]) {
      DropSpacesKeeps(s[1..]);
    }
  }

  /** The collapse leaves no white space: each character comes from the
      input and is not a space, or is a hyphen. */
  lemma {:induction false} CollapsedChars(s: string)
    ensures forall c :: c in CollapseSpaces(s) ==> (c in s && !IsSpace(c)) || c == '-'
    decreases |s|
  {
    if s != [] {
      if IsSpace(s[0]) {
        CollapsedChars(DropSpaces(s[1..]));
        DropSpacesKeeps(s[1..]);
      } else {
        CollapsedChars(s[1..]);
      }
    }
  }

  lemma {:induction false} LowerAsciiOfSlugChars(s: string)
    requires forall c :: c in s ==> IsSlugChar(c)
    ensures LowerAscii(s) == s
  {
    if s != [] {
      assert s[0] in s;
      LowerAsciiOfSlugChars(s[1..]);
    }
  }

  lemma {:induction false} KeepOfSlugChars(s: string)
    requires forall c :: c in s ==> IsSlugChar(c)
    ensures KeepSlugChars(s) == s
  {
    if s != [] {
      assert s[0] in s;
      KeepOfSlugChars(s[1..]);
    }
  }

  lemma {:induction false} CollapseOfNoSpaces(s: string)
    requires NoSpaces(s)
    ensures CollapseSpaces(s) == s
    decreases |s|
  {
    if s != [] {
      assert s[0] in s;
      CollapseOfNoSpaces(s[1..]);
    }
  }

  /** Slugging a slug changes nothing. */
  lemma SlugIdempotent(name: string)
    ensures Slug(Slug(name)) == Slug(name)
  {
    var s := Slug(name);
    LowerAsciiOfSlugChars(s);
    KeepOfSlugChars(s);
    assert NoSpaces(s);
    CollapseOfNoSpaces(s);
    TrimIsNoOp(s);
  }

  predicate AllSpaces(s: string)
  {
    forall i :: 0 <= i < |s| ==> IsSpace(s[i])
  }

  lemma {:induction false} DropSpacesRun(w: string, b: string)
    requires AllSpaces(w)
    requires b == [] || !IsSpace(b[0])
    ensures DropSpaces(w + b) == b
  {
    if w == [] {
      assert w + b == b;
    } else {
      assert (w + b)[1..] == w[1..] + b;
      DropSpacesRun(w[1..], b);
    }
  }

  /** Every maximal run of white space, wherever it sits, turns into exactly
      one hyphen, and the text around it is collapsed on its own. */
  lemma {:induction false} RunBecomesOneHyphen(a: string, w: string, b: string)
    requires |w| > 0 && AllSpaces(w)
    requires a == [] || !IsSpace(a[|a| - 1])
    requires b == [] || !IsSpace(b[0])
    ensures CollapseSpaces(a + w + b) == CollapseSpaces(a) + "-" + CollapseSpaces(b)
    decreases |a|, 1
  {
    var s := a + w + b;
    if a == [] {
      assert s == w + b;
      assert s[0] == w[0] && s[1..] == w[1..] + b;
      DropSpacesRun(w[1..], b);
      calc {
        CollapseSpaces(s);
        "-" + CollapseSpaces(DropSpaces(w[1..] + b));
        "-" + CollapseSpaces(b);
      }
      assert CollapseSpaces(a) + "-" + CollapseSpaces(b) == "-" + CollapseSpaces(b);
    } else if IsSpace(a[0]) {
      LeadingRunThenRun(a, w, b);
    } else {
      assert s[0] == a[0];
      assert s[1..] == a[1..] + w + b;
      calc {
        CollapseSpaces(s);
        [a[0]] + CollapseSpaces(a[1..] + w + b);
        { RunBecomesOneHyphen(a[1..], w, b); }
        [a[0]] + (CollapseSpaces(a[1..]) + "-" + CollapseSpaces(b));
      }
      assert CollapseSpaces(a) == [a[0]] + CollapseSpaces(a[1..]);
    }
  }

  /** The case of `RunBecomesOneHyphen` where `a` itself starts with white
      space: that leading run becomes a hyphen first. */
  lemma {:induction false} LeadingRunThenRun(a: string, w: string, b: string)
    requires |w| > 0 && AllSpaces(w)
    requires a != [] && IsSpace(a[0]) && !IsSpace(a[|a| - 1])
    requires b == [] || !IsSpace(b[0])
    ensures CollapseSpaces(a + w + b) == CollapseSpaces(a) + "-" + CollapseSpaces(b)
    decreases |a|, 0
  {
    // a ends with a non-space, so its first character being a space means
    // a has length at least 2
    assert |a| > 1;
    var rest := DropSpaces(a[1..]);
    var s := a + w + b;
    assert s[0] == a[0];
    assert s[1..] == a[1..] + (w + b);
    DropSpacesSplit(a[1..], w + b);
    assert rest + (w + b) == rest + w + b;
    DropSpacesSuffix(a[1..]);
    calc {
      CollapseSpaces(s);
      "-" + CollapseSpaces(DropSpaces(s[1..]));
      "-" + CollapseSpaces(rest + w + b);
      { RunBecomesOneHyphen(rest, w, b); }
      "-" + (CollapseSpaces(rest) + "-" + CollapseSpaces(b));
    }
    assert CollapseSpaces(a) == "-" + CollapseSpaces(rest);
  }

  /** Dropping leading spaces of a string that does not end in a space only
      looks at that string. */
  lemma {:induction false} DropSpacesSplit(a: string, c: string)
    requires a != [] && !IsSpace(a[|a| - 1])
    ensures DropSpaces(a + c) == DropSpaces(a) + c
  {
    if IsSpace(a[0]) {
      assert |a| > 1;
      assert (a + c)[1..] == a[1..] + c;
      DropSpacesSplit(a[1..], c);
    }
  }

  /** What is left after dropping leading spaces is a suffix with the same
      last character. */
  lemma {:induction false} DropSpacesSuffix(a: string)
    requires a != [] && !IsSpace(a[|a| - 1])
    ensures DropSpaces(a) != [] && DropSpaces(a)[|DropSpaces(a)| - 1] == a[|a| - 1]
  {
    if IsSpace(a[0]) {
      assert |a| > 1;
      DropSpacesSuffix(a[1..]);
    }
  }

  /** Hyphens already in the name are not merged with the ones the spaces
      become. */
  lemma HyphensNotMerged()
    ensures Slug("a - b") == "a---b"
  {
    KeptOfSpacedHyphen();
    CollapseOfSpacedHyphen();
    TrimIsNoOp("a---b");
  }

  /** Lower-casing and filtering leave `a - b` as it is. */
  lemma KeptOfSpacedHyphen()
    ensures KeepSlugChars(LowerAscii("a - b")) == "a - b"
  {
    assert LowerAscii("a - b") == "a - b";
    assert KeepSlugChars("b") == "b";
    assert KeepSlugChars(" b") == " b";
    assert KeepSlugChars("- b") == "- b";
    assert KeepSlugChars(" - b") == " - b";
  }

  /** Each of the two single spaces becomes its own hyphen. */
  lemma CollapseOfSpacedHyphen()
    ensures CollapseSpaces("a - b") == "a---b"
  {
    assert CollapseSpaces("b") == "b";
    assert CollapseSpaces("-") == "-";
    RunBecomesOneHyphen("-", " ", "b");
    assert "-" + " " + "b" == "- b";
    RunBecomesOneHyphen("a", " ", "- b");
    assert "a" + " " + "- b" == "a - b";
    CollapseOfNoSpaces("a");
  }

  /** Leading and trailing spaces survive as hyphens, since `trim` runs
      after they are replaced. */
  lemma EdgeSpacesBecomeHyphens()
    ensures Slug(" x ") == "-x-"
  {
    assert LowerAscii(" x ") == " x ";
    assert KeepSlugChars(" x ") == " x ";
    assert CollapseSpaces(" x ") == "-x-" by {
      assert DropSpaces(" ") == "";
      assert CollapseSpaces(" ") == "-";
      assert CollapseSpaces("x ") == "x-";
      assert DropSpaces("x ") == "x ";
    }
    TrimIsNoOp("-x-");
  }

  /** A name the schema accepts can give an empty slug. */
  lemma SlugCanBeEmpty()
    ensures |"!!!"| >= 1 && Slug("!!!") == ""
  {
    assert LowerAscii("!!!") == "!!!";
    assert KeepSlugChars("!!!") == "";
  }

  datatype RegisterInput = RegisterInput(
    restaurantName: string,
    address: string,
    phone: string,
    restaurantEmail: string,
    ownerName: string,
    ownerEmail: string,
    password: string)

  datatype RestaurantRow = RestaurantRow(id: string, name: string, email: string, slug: string)

  /** `.eq('email', e).single()` finds a row only when exactly one matches. */
  function CountEmail(rows: seq<string>, email: string): nat
  {
    if rows == [] then 0 else (if rows[0] == email then 1 else 0) + CountEmail(rows[1..], email)
  }

  function RestaurantEmails(rs: seq<RestaurantRow>): (es: seq<string>)
    ensures |es| == |rs| && forall i :: 0 <= i < |rs| ==> es[i] == rs[i].email
  {
    if rs == [] then [] else [rs[0].email] + RestaurantEmails(rs[1..])
  }

  /** What the handler receives from outside: whether the two e-mail strings
      pass the schema's e-mail check, the sign-up result (`None` for an error
      or a missing user, else the new user's id), the id of the inserted
      restaurant (`None` when the insert fails) and whether the user row is
      written. */
  datatype RegisterEnv = RegisterEnv(
    restaurantEmailValid: bool,
    ownerEmailValid: bool,
    signUp: Option<string>,
    restaurantId: Option<string>,
    userRowOk: bool)

  datatype RegisterResponse =
    | RegisterInvalid
    | RestaurantEmailTaken
    | OwnerEmailTaken
    | SignUpFailed
    | RestaurantInsertFailed
    | UserRowFailed
    | Registered(restaurantId: string, slug: string, userId: string)

  datatype RegisterPlan = RegisterPlan(response: RegisterResponse, restaurants: seq<RestaurantRow>)

  predicate ValidRegistration(r: RegisterInput, env: RegisterEnv)
  {
    |r.restaurantName| >= 1 && |r.address| >= 1 && |r.phone| >= 1 && env.restaurantEmailValid
    && |r.ownerName| >= 1 && env.ownerEmailValid && |r.password| >= 6
  }

  /** The handler's sequence: schema, the two e-mail pre-checks, sign-up,
      then the restaurant and user writes. */
  function RegisterSpec(r: RegisterInput, restaurants: seq<RestaurantRow>, userEmails: seq<string>, env: RegisterEnv): (p: RegisterPlan)
    ensures p.restaurants != restaurants <==> p.response.Registered?
    ensures p.response.Registered? ==>
      && p.response.slug == Slug(r.restaurantName)
      && env.signUp == Some(p.response.userId)
      && p.restaurants == restaurants + [RestaurantRow(p.response.restaurantId, r.restaurantName, r.restaurantEmail, p.response.slug)]
  {
    if !ValidRegistration(r, env) then RegisterPlan(RegisterInvalid, restaurants)
    else if CountEmail(RestaurantEmails(restaurants), r.restaurantEmail) == 1 then RegisterPlan(RestaurantEmailTaken, restaurants)
    else if CountEmail(userEmails, r.ownerEmail) == 1 then RegisterPlan(OwnerEmailTaken, restaurants)
    else if env.signUp.None? then RegisterPlan(SignUpFailed, restaurants)
    else if env.restaurantId.None? then RegisterPlan(RestaurantInsertFailed, restaurants)
    else
      var row := RestaurantRow(env.restaurantId.value, r.restaurantName, r.restaurantEmail, Slug(r.restaurantName));
      // a failed user row deletes the restaurant just inserted
      if !env.userRowOk then RegisterPlan(UserRowFailed, restaurants)
      else RegisterPlan(Registered(row.id, row.slug, env.signUp.value), restaurants + [row])
  }

  /** Only the two e-mails are looked up before the insert: a restaurant
      whose name gives an existing restaurant's slug is registered when the
      rest goes through, and the table then holds two rows with that slug. */
  lemma SlugUniquenessNeverChecked(r: RegisterInput, restaurants: seq<RestaurantRow>, userEmails: seq<string>, env: RegisterEnv, k: nat)
    requires ValidRegistration(r, env)
    requires CountEmail(RestaurantEmails(restaurants), r.restaurantEmail) != 1
    requires CountEmail(userEmails, r.ownerEmail) != 1
    requires env.signUp.Some? && env.restaurantId.Some? && env.userRowOk
    requires k < |restaurants| && restaurants[k].slug == Slug(r.restaurantName)
    ensures var plan := RegisterSpec(r, restaurants, userEmails, env);
      && plan.response.Registered?
      && plan.response.slug == restaurants[k].slug
      && |plan.restaurants| == |restaurants| + 1
      && plan.restaurants[k].slug == plan.restaurants[|restaurants|].slug
  {
  }

  /** The restaurant e-mail pre-check finds a row only when exactly one
      matches, so an e-mail already used by two restaurants passes it. */
  lemma DuplicatedEmailPassesPrecheck(r: RegisterInput, a: RestaurantRow, b: RestaurantRow, userEmails: seq<string>, env: RegisterEnv)
    requires ValidRegistration(r, env)
    requires a.email == r.restaurantEmail && b.email == r.restaurantEmail
    ensures RegisterSpec(r, [a, b], userEmails, env).response != RestaurantEmailTaken
  {
    assert RestaurantEmails([a, b]) == [a.email, b.email];
    assert [a.email, b.email][1..] == [b.email];
    assert [b.email][1..] == [];
    assert CountEmail([b.email], r.restaurantEmail) == 1;
    assert CountEmail([a.email, b.email], r.restaurantEmail) == 2;
  }

  /** Nothing is kept written unless both pre-checks, the sign-up and both
      writes pass, and a successful registration stores the name's slug. */
  lemma WritesFollowChecks(r: RegisterInput, restaurants: seq<RestaurantRow>, userEmails: seq<string>, env: RegisterEnv)
    ensures var plan := RegisterSpec(r, restaurants, userEmails, env);
      && (plan.restaurants != restaurants ==>
            && ValidRegistration(r, env)
            && CountEmail(RestaurantEmails(restaurants), r.restaurantEmail) != 1
            && CountEmail(userEmails, r.ownerEmail) != 1
            && env.signUp.Some? && env.userRowOk
            && plan.restaurants == restaurants + [RestaurantRow(env.restaurantId.value, r.restaurantName, r.restaurantEmail, Slug(r.restaurantName))])
      && (plan.response.Registered? ==> plan.response.slug == Slug(r.restaurantName) && |plan.restaurants| == |restaurants| + 1)
  {
  }
}
