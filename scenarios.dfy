/** End-to-end scenarios, proved from the contracts alone. */
module Scenarios {
  import opened Common
  import opened Records
  import opened Phone
  import opened Dispatcher
  import opened Templates
  import opened Policy
  import opened Backend

  const LiveConfig: Config := Config(Some("https://api.example/send"), Some("key"))
  const Applicant: User := User("siti@example.id", "Siti", Some("0812 3456"), "user", None)
  const NewApplication: Application := Application("u1", None, None, Some("Budi"), Some("Siti"))

  /** A new application with no admin_kua user: the applicant is told the
      application id, and one APPLICATION_CREATED entry names both spouses. */
  method CreationScenario()
  {
    var store := new Store(LiveConfig, map["u1" := Applicant]);
    var created := store.OnApplicationCreated("app1", NewApplication, Response("ok"),
                                              Response("ok"), true);
    assert !IsAdminKua(store.users, "u1");
    assert forall a :: !IsAdminKua(store.users, a);
    assert created == Succeeded;
    assert |store.sent| == 1 && store.sent[0].message == ApplicantCreated("Siti", "app1");
    ApplicantCreatedMentions("Siti", "app1");
    assert Contains(store.sent[0].message, "app1");
    assert store.logs == [LogEntry(Some("app1"), ApplicationCreated, "u1",
                                   CreatedDetails("Budi", "Siti"))];
  }

  const Reason: Option<string> := Some("dokumen tidak lengkap")

  /** The pure facts the rejection scenario rests on: the notice due, the one
      POST the dispatcher plans for it, and the reason it carries. */
  lemma RejectionNotice()
    ensures ResolveStatus(Some("rejected"), "app1", "Siti", Reason)
         == Some(Notice(RejectedText("Siti", "app1", Reason), StatusRejected))
    ensures Plan(LiveConfig, Applicant.phone, RejectedText("Siti", "app1", Reason),
                 TransportError("timeout")).attempts
         == [Send(Normalize("0812 3456"), RejectedText("Siti", "app1", Reason))]
    ensures Contains(RejectedText("Siti", "app1", Reason), "dokumen tidak lengkap")
  {
    RejectionGivesReason("app1", "Siti", Reason);
  }

  /** From processed to rejected with a reason: one POST naming the reason and
      one STATUS_REJECTED entry, although the provider reports a failure. */
  method RejectionScenario()
  {
    var store := new Store(LiveConfig, map["u1" := Applicant]);
    var processed := NewApplication.(status := Some("processed"));
    var rejected := NewApplication.(status := Some("rejected"), rejectionReason := Reason);
    var message := RejectedText("Siti", "app1", Reason);
    assert Lookup(store.users, "u1") == Some(Applicant);
    RejectionNotice();
    var changed := store.OnStatusChanged("app1", processed, rejected, TransportError("timeout"), true);
    assert changed == Succeeded;
    assert store.sent == [Send(Normalize("0812 3456"), message)];
    assert Contains(store.sent[0].message, "dokumen tidak lengkap");
    assert store.logs == [LogEntry(Some("app1"), StatusRejected, "u1",
      StatusDetails(Some("processed"), Some("rejected"), Reason))];
  }

  /** An update that leaves the status as it was sends nothing and logs nothing. */
  method UnchangedScenario()
  {
    var store := new Store(LiveConfig, map["u1" := Applicant]);
    var rejected := NewApplication.(status := Some("rejected"));
    var again := store.OnStatusChanged("app1", rejected, rejected, Response("ok"), true);
    assert again == Ignored && store.sent == [] && store.logs == [];
  }
}
