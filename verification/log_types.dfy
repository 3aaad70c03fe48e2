/**
 * The `logTypes` catalog: Auth0 log type code to event name and severity level.
 * The catalog is a JavaScript object literal, and two of its codes are defined
 * twice; in an object literal the later definition of a key replaces the earlier one.
 */
module LogTypes {
  import opened Wrappers

  /** One catalog entry; `level` is absent on some entries. */
  datatype EventType = EventType(event: string, level: Option<nat>)

  /** The value of an object literal with the given properties, in source order. */
  function ObjectLiteral<V>(entries: seq<(string, V)>): map<string, V> {
    if entries == [] then map[]
    else ObjectLiteral(entries[..|entries| - 1])[entries[|entries| - 1].0 := entries[|entries| - 1].1]
  }

  /** The keys of an object literal are exactly the property names it lists. */
  lemma {:induction false} ObjectLiteralKeys<V>(entries: seq<(string, V)>)
    ensures forall i :: 0 <= i < |entries| ==> entries[i].0 in ObjectLiteral(entries)
    ensures forall k :: k in ObjectLiteral(entries) ==> exists i :: 0 <= i < |entries| && entries[i].0 == k
  {
    if entries != [] {
      var init := entries[..|entries| - 1];
      ObjectLiteralKeys(init);
      assert forall i :: 0 <= i < |init| ==> init[i] == entries[i];
    }
  }

  /** A property keeps the value of its last definition in the literal. */
  lemma {:induction false} LaterDefinitionWins<V>(entries: seq<(string, V)>, i: nat)
    requires i < |entries|
    requires forall j :: i < j < |entries| ==> entries[j].0 != entries[i].0
    ensures entries[i].0 in ObjectLiteral(entries) && ObjectLiteral(entries)[entries[i].0] == entries[i].1
  {
    if i < |entries| - 1 {
      var init := entries[..|entries| - 1];
      assert forall j :: i < j < |init| ==> init[j] == entries[j];
      LaterDefinitionWins(init, i);
    }
  }

  /** The properties of `logTypes`, in the order the source lists them. */
  const Entries: seq<(string, EventType)> := [
    ("s", EventType("Success Login", Some(1))),
    ("seacft", EventType("Success Exchange", Some(1))),
    ("seccft", EventType("Success Exchange (Client Credentials)", Some(1))),
    ("feacft", EventType("Failed Exchange", Some(3))),
    ("feccft", EventType("Failed Exchange (Client Credentials)", Some(3))),
    ("f", EventType("Failed Login", Some(3))),
    ("w", EventType("Warnings During Login", Some(2))),
    ("du", EventType("Deleted User", Some(1))),
    ("fu", EventType("Failed Login (invalid email/username)", Some(3))),
    ("fp", EventType("Failed Login (wrong password)", Some(3))),
    ("fc", EventType("Failed by Connector", Some(3))),
    ("fco", EventType("Failed by CORS", Some(3))),
    ("con", EventType("Connector Online", Some(1))),
    ("coff", EventType("Connector Offline", Some(3))),
    ("fcpro", EventType("Failed Connector Provisioning", Some(4))),
    ("ss", EventType("Success Signup", Some(1))),
    ("fs", EventType("Failed Signup", Some(3))),
    ("cs", EventType("Code Sent", Some(0))),
    ("cls", EventType("Code/Link Sent", Some(0))),
    ("sv", EventType("Success Verification Email", Some(0))),
    ("fv", EventType("Failed Verification Email", Some(0))),
    ("scp", EventType("Success Change Password", Some(1))),
    ("fcp", EventType("Failed Change Password", Some(3))),
    ("sce", EventType("Success Change Email", Some(1))),
    ("fce", EventType("Failed Change Email", Some(3))),
    ("scu", EventType("Success Change Username", Some(1))),
    ("fcu", EventType("Failed Change Username", Some(3))),
    ("scpn", EventType("Success Change Phone Number", Some(1))),
    ("fcpn", EventType("Failed Change Phone Number", Some(3))),
    ("svr", EventType("Success Verification Email Request", Some(0))),
    ("fvr", EventType("Failed Verification Email Request", Some(3))),
    ("scpr", EventType("Success Change Password Request", Some(0))),
    ("fcpr", EventType("Failed Change Password Request", Some(3))),
    ("fn", EventType("Failed Sending Notification", Some(3))),
    ("sapi", EventType("API Operation", None)),
    ("fapi", EventType("Failed API Operation", None)),
    ("limit_wc", EventType("Blocked Account", Some(4))),
    ("limit_ui", EventType("Too Many Calls to /userinfo", Some(4))),
    ("api_limit", EventType("Rate Limit On API", Some(4))),
    ("sdu", EventType("Successful User Deletion", Some(1))),
    ("fdu", EventType("Failed User Deletion", Some(3))),
    ("fapi", EventType("Failed API Operation", Some(3))),
    ("limit_wc", EventType("Blocked Account", Some(3))),
    ("limit_mu", EventType("Blocked IP Address", Some(3))),
    ("slo", EventType("Success Logout", Some(1))),
    ("flo", EventType(" Failed Logout", Some(3))),
    ("sd", EventType("Success Delegation", Some(1))),
    ("fd", EventType("Failed Delegation", Some(3)))
  ]

  /** `logTypes` as the object the literal evaluates to. */
  function Catalog(): map<string, EventType> {
    ObjectLiteral(Entries)
  }

  /** Every code listed in the source is a key of the catalog. */
  lemma ListedCodesAreKnown()
    ensures forall i :: 0 <= i < |Entries| ==> Entries[i].0 in Catalog()
  {
    ObjectLiteralKeys(Entries);
  }

  /** The last six codes of the literal, which follow both second definitions. */
  lemma TailCodes()
    ensures Entries[42].0 == "limit_wc" && Entries[43].0 == "limit_mu" && Entries[44].0 == "slo"
    ensures Entries[45].0 == "flo" && Entries[46].0 == "sd" && Entries[47].0 == "fd"
  {
  }

  /** `fapi` is listed twice, first without a level and then with level 3; the second wins. */
  lemma FapiTakesLaterDefinition()
    ensures Entries[35].0 == Entries[41].0 == "fapi" && Entries[35].1 != Entries[41].1
    ensures "fapi" in Catalog() && Catalog()["fapi"] == EventType("Failed API Operation", Some(3))
  {
    TailCodes();
    LaterDefinitionWins(Entries, 41);
  }

  /** `limit_wc` is listed twice, first with level 4 and then with level 3; the second wins. */
  lemma LimitWcTakesLaterDefinition()
    ensures Entries[36].0 == Entries[42].0 == "limit_wc" && Entries[36].1 != Entries[42].1
    ensures "limit_wc" in Catalog() && Catalog()["limit_wc"] == EventType("Blocked Account", Some(3))
  {
    TailCodes();
    LaterDefinitionWins(Entries, 42);
  }
}
