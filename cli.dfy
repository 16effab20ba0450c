/** The command-line client: the registry of instances it keeps in memory, the
    copy last saved to disk, the photo store, and the operations that change
    them while talking to the gateway. */
module Cli {

  import opened Values
  import opened EvolutionApi
  import opened Registry

  /** Seconds waited after the picture and after the name update. */
  const SettleDelay := 5
  /** Seconds between name-update attempts and between bio-update attempts. */
  const NameRetryDelay := 3
  const StatusRetryDelay := 2
  /** Seconds between two invite requests. */
  const JoinDelay := 10
  /** How long the create flow waits for the QR code to be scanned. */
  const ConnectTimeout := 120

  /** The replies the name updates consume, given the replies after the picture's. */
  function BioReplies(afterPicture: seq<Option<Json>>): seq<Option<Json>>
  {
    Drop(afterPicture, Attempts(afterPicture))
  }

  /** The profile updates of the persona set-up all succeed: the picture's one
      reply, then one of up to three name replies, then one of up to three bio replies. */
  predicate ProfileUpdatesSucceed(replies: seq<Option<Json>>)
  {
    var afterPicture := Drop(replies, 1);
    && Succeeded(ReplyAt(replies, 0))
    && FirstHit(Succeeded, afterPicture, MaxAttempts).Some?
    && FirstHit(Succeeded, BioReplies(afterPicture), MaxAttempts).Some?
  }

  /** The requests the profile updates send, every one of them sent whatever
      the earlier ones returned. */
  function ProfileRequests(instance: string, persona: Persona, photoId: string, replies: seq<Option<Json>>): seq<Request>
  {
    var afterPicture := Drop(replies, 1);
    [ChatUpdateProfilePicture(instance, photoId)]
      + Repeat(ChatUpdateProfileName(instance, persona.name), Attempts(afterPicture))
      + Repeat(ChatUpdateProfileStatus(instance, TruncateBio(persona.bio)), Attempts(BioReplies(afterPicture)))
  }

  /** The time the profile updates take. */
  function ProfileDelay(replies: seq<Option<Json>>): nat
  {
    var afterPicture := Drop(replies, 1);
    2 * SettleDelay
      + NameRetryDelay * (Attempts(afterPicture) - 1)
      + StatusRetryDelay * (Attempts(BioReplies(afterPicture)) - 1)
  }

  /** How the create-and-connect flow ended. */
  datatype CreateOutcome =
    | EmptyName
    | AlreadyExists
    | CreateFailed
    | NoQrCode
    | NotConnected
    | Connected(personaReady: bool)

  class EvolutionCli {
    /** The registry in memory, by instance name. */
    var instances: map<string, Record>
    /** The registry as last written to disk. */
    ghost var persisted: map<string, Record>
    /** The photo store: stored photo id to the model photo it was copied from. */
    var photos: map<string, string>
    const gateway: Gateway
    const clock: Clock

    ghost predicate Valid()
      reads this
    {
      WellFormed(instances)
    }

    constructor(saved: map<string, Record>, stored: map<string, string>, api: Gateway, time: Clock)
      requires WellFormed(saved)
      ensures Valid()
      ensures instances == saved && persisted == saved && photos == stored
      ensures gateway == api && clock == time
    {
      instances := saved;
      persisted := saved;
      photos := stored;
      gateway := api;
      clock := time;
    }

    /** Reconciles the registry with the gateway's instance list: unknown names
        are inserted, known ones take the reported status, and the registry is
        saved only when something was inserted. */
    method SyncInstances(remote: seq<RemoteInstance>)
      requires Valid()
      modifies this
      ensures Valid()
      ensures instances == Reconcile(old(instances), remote, clock.now).instances
      ensures persisted == if Reconcile(old(instances), remote, clock.now).inserted > 0 then instances else old(persisted)
      ensures photos == old(photos)
    {
      ghost var start := instances;
      var synced := 0;
      var i := 0;
      while i < |remote|
        invariant 0 <= i <= |remote|
        invariant Reconcile(start, remote[..i], clock.now) == SyncResult(instances, synced)
        invariant persisted == old(persisted) && photos == old(photos)
      {
        var entry := remote[i];
        if entry.name.Some? && entry.name.value != "" {
          var name := entry.name.value;
          var open := entry.connectionStatus == Some("open");
          if name !in instances {
            instances := instances[name := Fresh(name, open, clock.now)];
            synced := synced + 1;
          } else if instances[name].connected != open {
            instances := instances[name := instances[name].(connected := open)];
          }
        }
        assert remote[..i + 1][..i] == remote[..i];
        i := i + 1;
      }
      assert remote[..i] == remote;
      if synced > 0 {
        persisted := instances;
      }
      SyncWellFormed(start, remote, clock.now);
    }

    /** Asks the gateway for the instance's connection state. */
    method CheckConnectionStatus(name: string) returns (open: bool)
      modifies gateway
      ensures open == IsOpen(ReplyAt(old(gateway.replies), 0))
      ensures gateway.sent == old(gateway.sent) + [InstanceConnectionState(name)]
      ensures gateway.replies == Drop(old(gateway.replies), 1)
    {
      var reply := gateway.Send(InstanceConnectionState(name));
      open := IsOpen(reply);
    }

    /** Polls every three seconds until the instance reports open or the timeout
        has passed. On the first open report the record is marked connected and
        saved; otherwise the registry is left alone. */
    method WaitForConnection(name: string, timeout: int) returns (ok: bool)
      requires Valid() && name in instances
      modifies this, gateway, clock
      ensures Valid()
      ensures var hit := FirstHit(IsOpen, old(gateway.replies), PollCount(timeout));
              && ok == hit.Some?
              && (ok ==> gateway.sent == old(gateway.sent) + Repeat(InstanceConnectionState(name), hit.value + 1)
                         && clock.now == old(clock.now) + PollInterval * hit.value
                         && instances == old(instances)[name := old(instances)[name].(connected := true)]
                         && persisted == instances)
              && (!ok ==> gateway.sent == old(gateway.sent) + Repeat(InstanceConnectionState(name), PollCount(timeout))
                          && clock.now == old(clock.now) + PollInterval * PollCount(timeout)
                          && instances == old(instances) && persisted == old(persisted))
      ensures instances.Keys == old(instances).Keys
      ensures instances[name] == old(instances)[name].(connected := instances[name].connected)
      ensures ok ==> instances[name].connected
      ensures photos == old(photos)
    {
      ghost var replies := gateway.replies;
      var start := clock.now;
      var probes := 0;
      while clock.now - start < timeout
        invariant clock.now == start + PollInterval * probes
        invariant probes <= PollCount(timeout)
        invariant forall j :: 0 <= j < probes ==> !IsOpen(ReplyAt(replies, j))
        invariant gateway.sent == old(gateway.sent) + Repeat(InstanceConnectionState(name), probes)
        invariant gateway.replies == Drop(replies, probes)
        invariant instances == old(instances) && persisted == old(persisted) && photos == old(photos)
        decreases timeout - (clock.now - start)
      {
        var open := CheckConnectionStatus(name);
        ReplyAtDrop(replies, probes, 0);
        DropDrop(replies, probes, 1);
        assert gateway.sent == old(gateway.sent) + Repeat(InstanceConnectionState(name), probes + 1);
        if open {
          instances := instances[name := instances[name].(connected := true)];
          persisted := instances;
          return true;
        }
        clock.Sleep(PollInterval);
        probes := probes + 1;
      }
      return false;
    }

    /** Sends one request up to three times, stopping at the first truthy
        reply and sleeping `delay` seconds between attempts (not after the last). */
    method RetryRequest(req: Request, delay: nat) returns (ok: bool)
      modifies gateway, clock
      ensures ok == FirstHit(Succeeded, old(gateway.replies), MaxAttempts).Some?
      ensures gateway.sent == old(gateway.sent) + Repeat(req, Attempts(old(gateway.replies)))
      ensures gateway.replies == Drop(old(gateway.replies), Attempts(old(gateway.replies)))
      ensures clock.now == old(clock.now) + delay * (Attempts(old(gateway.replies)) - 1)
    {
      ghost var replies := gateway.replies;
      var attempt := 0;
      while attempt < MaxAttempts
        invariant 0 <= attempt <= MaxAttempts
        invariant forall j :: 0 <= j < attempt ==> !Succeeded(ReplyAt(replies, j))
        invariant gateway.sent == old(gateway.sent) + Repeat(req, attempt)
        invariant gateway.replies == Drop(replies, attempt)
        invariant clock.now == old(clock.now) + delay * (if attempt == MaxAttempts then attempt - 1 else attempt)
      {
        var reply := gateway.Send(req);
        ReplyAtDrop(replies, attempt, 0);
        DropDrop(replies, attempt, 1);
        assert gateway.sent == old(gateway.sent) + Repeat(req, attempt + 1);
        if Succeeded(reply) {
          return true;
        }
        if attempt < MaxAttempts - 1 {
          clock.Sleep(delay);
        }
        attempt := attempt + 1;
      }
      return false;
    }

    /** Sets the profile name, retrying with three seconds between attempts. */
    method UpdateProfileName(instance: string, profileName: string) returns (ok: bool)
      modifies gateway, clock
      ensures ok == FirstHit(Succeeded, old(gateway.replies), MaxAttempts).Some?
      ensures gateway.sent == old(gateway.sent) + Repeat(ChatUpdateProfileName(instance, profileName), Attempts(old(gateway.replies)))
      ensures gateway.replies == Drop(old(gateway.replies), Attempts(old(gateway.replies)))
      ensures clock.now == old(clock.now) + NameRetryDelay * (Attempts(old(gateway.replies)) - 1)
    {
      ok := RetryRequest(ChatUpdateProfileName(instance, profileName), NameRetryDelay);
    }

    /** Sets the profile bio, cut to 139 characters, retrying with two seconds
        between attempts. */
    method UpdateProfileStatus(instance: string, status: string) returns (ok: bool)
      modifies gateway, clock
      ensures ok == FirstHit(Succeeded, old(gateway.replies), MaxAttempts).Some?
      ensures gateway.sent == old(gateway.sent) + Repeat(ChatUpdateProfileStatus(instance, TruncateBio(status)), Attempts(old(gateway.replies)))
      ensures gateway.replies == Drop(old(gateway.replies), Attempts(old(gateway.replies)))
      ensures clock.now == old(clock.now) + StatusRetryDelay * (Attempts(old(gateway.replies)) - 1)
    {
      ok := RetryRequest(ChatUpdateProfileStatus(instance, TruncateBio(status)), StatusRetryDelay);
    }

    /** Sets the profile picture from a stored photo, in a single attempt. */
    method UpdateProfilePicture(instance: string, photoId: string) returns (ok: bool)
      modifies gateway
      ensures ok == Succeeded(ReplyAt(old(gateway.replies), 0))
      ensures gateway.sent == old(gateway.sent) + [ChatUpdateProfilePicture(instance, photoId)]
      ensures gateway.replies == Drop(old(gateway.replies), 1)
    {
      var reply := gateway.Send(ChatUpdateProfilePicture(instance, photoId));
      ok := Succeeded(reply);
    }

    /** Runs the three profile updates, each whatever the others returned. */
    method RunProfileUpdates(instance: string, persona: Persona, photoId: string) returns (ok: bool)
      modifies gateway, clock
      ensures ok == ProfileUpdatesSucceed(old(gateway.replies))
      ensures gateway.sent == old(gateway.sent) + ProfileRequests(instance, persona, photoId, old(gateway.replies))
      ensures clock.now == old(clock.now) + ProfileDelay(old(gateway.replies))
    {
      ghost var replies := gateway.replies;
      ghost var sent := gateway.sent;
      ghost var afterPicture := Drop(replies, 1);
      var pictureOk := UpdateProfilePicture(instance, photoId);
      clock.Sleep(SettleDelay);
      ghost var pictureSent := gateway.sent;
      var nameOk := UpdateProfileName(instance, persona.name);
      clock.Sleep(SettleDelay);
      ghost var nameSent := gateway.sent;
      assert gateway.replies == BioReplies(afterPicture);
      var statusOk := UpdateProfileStatus(instance, persona.bio);
      ok := pictureOk && nameOk && statusOk;
      ghost var pic := [ChatUpdateProfilePicture(instance, photoId)];
      ghost var names := Repeat(ChatUpdateProfileName(instance, persona.name), Attempts(afterPicture));
      ghost var bios := Repeat(ChatUpdateProfileStatus(instance, TruncateBio(persona.bio)), Attempts(BioReplies(afterPicture)));
      assert gateway.sent == sent + pic + names + bios;
      assert ProfileRequests(instance, persona, photoId, replies) == pic + names + bios;
      assert sent + pic + names + bios == sent + (pic + names + bios);
    }

    /** Gives a connected instance a persona: the business flag is read first;
        an instance that already has a persona is left alone and reported as
        done; otherwise a model photo is copied into the store under `photoId`,
        the generated persona is applied to the profile, and the record is
        updated and saved only when all three updates succeeded. The stored
        persona keeps the generated bio in full. */
    method SetupPersona(name: string, available: seq<string>, photoId: string, generated: Option<Persona>)
      returns (ok: bool)
      requires Valid() && name in instances
      modifies this, gateway, clock
      ensures Valid()
      ensures var record := old(instances)[name];
              record.persona.Some? || available == [] || generated.None? ==>
                && ok == record.persona.Some?
                && gateway.sent == old(gateway.sent) + [FetchInstances]
                && clock.now == old(clock.now)
                && instances == old(instances) && persisted == old(persisted)
      ensures old(instances)[name].persona.Some? || available == [] ==> photos == old(photos)
      ensures old(instances)[name].persona.None? && available != [] ==>
                photoId in photos && photos[photoId] in available && photos == old(photos)[photoId := photos[photoId]]
      ensures var record := old(instances)[name];
              var replies := Drop(old(gateway.replies), 1);
              record.persona.None? && available != [] && generated.Some? ==>
                && ok == ProfileUpdatesSucceed(replies)
                && gateway.sent == old(gateway.sent) + [FetchInstances] + ProfileRequests(name, generated.value, photoId, replies)
                && clock.now == old(clock.now) + ProfileDelay(replies)
                && (ok ==> instances == old(instances)[name := record.(
                              persona := generated,
                              photoId := Some(photoId),
                              isBusiness := Some(BusinessFlag(ReplyAt(old(gateway.replies), 0), name)))]
                           && persisted == instances)
                && (!ok ==> instances == old(instances) && persisted == old(persisted))
      ensures instances.Keys == old(instances).Keys
      ensures instances[name].apikey == old(instances)[name].apikey
      ensures instances[name].connected == old(instances)[name].connected
    {
      var reply := gateway.Send(FetchInstances);
      var isBusiness := BusinessFlag(reply, name);
      if instances[name].persona.Some? {
        return true;
      }
      if available == [] {
        return false;
      }
      assert available[0] in available;
      var source :| source in available;
      photos := photos[photoId := source];
      if generated.None? {
        return false;
      }
      ok := ApplyPersona(name, generated.value, photoId, isBusiness);
    }

    /** The last steps of the persona set-up: the three profile updates, then,
        when all succeeded, the record takes persona, photo and business flag
        and the registry is saved. */
    method ApplyPersona(name: string, persona: Persona, photoId: string, isBusiness: Json) returns (ok: bool)
      requires Valid() && name in instances
      modifies this, gateway, clock
      ensures Valid()
      ensures ok == ProfileUpdatesSucceed(old(gateway.replies))
      ensures gateway.sent == old(gateway.sent) + ProfileRequests(name, persona, photoId, old(gateway.replies))
      ensures clock.now == old(clock.now) + ProfileDelay(old(gateway.replies))
      ensures ok ==> instances == old(instances)[name := old(instances)[name].(
                       persona := Some(persona), photoId := Some(photoId), isBusiness := Some(isBusiness))]
                     && persisted == instances
      ensures !ok ==> instances == old(instances) && persisted == old(persisted)
      ensures photos == old(photos)
    {
      ok := RunProfileUpdates(name, persona, photoId);
      if ok {
        instances := instances[name := instances[name].(
          persona := Some(persona), photoId := Some(photoId), isBusiness := Some(isBusiness))];
        persisted := instances;
      }
    }

    /** Asks the gateway to create an instance; on a successful reply the record
        is added with the returned credential, not connected, and saved. */
    method CreateInstance(name: string) returns (result: Option<Json>)
      requires Valid()
      modifies this, gateway
      ensures Valid()
      ensures gateway.sent == old(gateway.sent) + [InstanceCreate(name)]
      ensures gateway.replies == Drop(old(gateway.replies), 1)
      ensures var reply := ReplyAt(old(gateway.replies), 0);
              if ObjectReply(reply) then
                && result == reply
                && instances == old(instances)[name := Record(name, CredentialOf(reply), clock.now, false, None, None, None, false)]
                && persisted == instances
              else
                result.None? && instances == old(instances) && persisted == old(persisted)
      ensures photos == old(photos)
    {
      var reply := gateway.Send(InstanceCreate(name));
      if ObjectReply(reply) {
        instances := instances[name := Record(name, CredentialOf(reply), clock.now, false, None, None, None, false)];
        persisted := instances;
        return reply;
      }
      return None;
    }

    /** Asks the gateway for the pairing QR code. */
    method ConnectInstance(name: string) returns (qr: bool)
      modifies gateway
      ensures qr == HasQrCode(ReplyAt(old(gateway.replies), 0))
      ensures gateway.sent == old(gateway.sent) + [InstanceConnect(name)]
      ensures gateway.replies == Drop(old(gateway.replies), 1)
    {
      var reply := gateway.Send(InstanceConnect(name));
      qr := HasQrCode(reply);
    }

    /** The create flow for a name the operator typed (already trimmed): refuse
        an empty or known name, create, fetch the QR code, wait for the scan,
        then set up the persona. */
    method CreateAndConnect(name: string, available: seq<string>, photoId: string, generated: Option<Persona>)
      returns (outcome: CreateOutcome)
      requires Valid()
      modifies this, gateway, clock
      ensures Valid()
      ensures outcome == EmptyName <==> name == ""
      ensures outcome == AlreadyExists <==> name != "" && name in old(instances)
      ensures outcome == EmptyName || outcome == AlreadyExists ==>
                instances == old(instances) && persisted == old(persisted) && gateway.sent == old(gateway.sent)
      ensures outcome == CreateFailed <==>
                name != "" && name !in old(instances) && !ObjectReply(ReplyAt(old(gateway.replies), 0))
      ensures outcome == CreateFailed ==> instances == old(instances) && persisted == old(persisted)
      ensures outcome != EmptyName && outcome != AlreadyExists && outcome != CreateFailed ==>
                name in instances && name !in old(instances) && old(instances).Keys + {name} == instances.Keys
                && instances[name].apikey == CredentialOf(ReplyAt(old(gateway.replies), 0))
      ensures outcome == NoQrCode || outcome == NotConnected ==> !instances[name].connected
      ensures outcome.Connected? ==> instances[name].connected
      ensures forall k | k in old(instances) :: k in instances && instances[k] == old(instances)[k]
      ensures outcome != EmptyName && outcome != AlreadyExists && outcome != CreateFailed ==> persisted == instances
      ensures outcome == Connected(true) ==>
                generated.Some? && instances[name].persona == generated && instances[name].photoId == Some(photoId)
      ensures outcome == Connected(false) ==> instances[name].persona.None?
      ensures outcome.Connected? && available != [] ==>
                photoId in photos && photos[photoId] in available && photos == old(photos)[photoId := photos[photoId]]
      ensures !(outcome.Connected? && available != []) ==> photos == old(photos)
    {
      if name == "" {
        return EmptyName;
      }
      if name in instances {
        return AlreadyExists;
      }
      var created := CreateInstance(name);
      if created.None? {
        return CreateFailed;
      }
      outcome := ConnectAndSetUp(name, available, photoId, generated);
    }

    /** The create flow once the gateway has created the instance: fetch the QR
        code, wait for the scan, then set up the persona. */
    method ConnectAndSetUp(name: string, available: seq<string>, photoId: string, generated: Option<Persona>)
      returns (outcome: CreateOutcome)
      requires Valid() && name in instances && persisted == instances
      requires !instances[name].connected && instances[name].persona.None?
      modifies this, gateway, clock
      ensures Valid()
      ensures outcome == NoQrCode || outcome == NotConnected || outcome.Connected?
      ensures instances.Keys == old(instances).Keys && persisted == instances
      ensures forall k | k in old(instances) && k != name :: instances[k] == old(instances)[k]
      ensures instances[name].apikey == old(instances)[name].apikey
      ensures outcome == NoQrCode || outcome == NotConnected ==> !instances[name].connected
      ensures outcome.Connected? ==> instances[name].connected
      ensures outcome == Connected(true) ==>
                generated.Some? && instances[name].persona == generated && instances[name].photoId == Some(photoId)
      ensures outcome == Connected(false) ==> instances[name].persona.None?
      ensures outcome.Connected? && available != [] ==>
                photoId in photos && photos[photoId] in available && photos == old(photos)[photoId := photos[photoId]]
      ensures !(outcome.Connected? && available != []) ==> photos == old(photos)
    {
      var qr := ConnectInstance(name);
      if !qr {
        return NoQrCode;
      }
      var connected := WaitForConnection(name, ConnectTimeout);
      if !connected {
        return NotConnected;
      }
      var ready := SetupPersona(name, available, photoId, generated);
      return Connected(ready);
    }

    /** Deletes an instance the operator confirmed: the gateway is asked to
        delete it (its answer is not consulted), its stored photo is removed, and
        the record is dropped and the registry saved. */
    method DeleteInstance(name: string, confirmed: bool) returns (deleted: bool)
      requires Valid()
      modifies this, gateway
      ensures Valid()
      ensures deleted == (name in old(instances) && confirmed)
      ensures !deleted ==>
                instances == old(instances) && persisted == old(persisted) && photos == old(photos)
                && gateway.sent == old(gateway.sent)
      ensures deleted ==>
                && instances == old(instances) - {name}
                && persisted == instances
                && gateway.sent == old(gateway.sent) + [InstanceDelete(name)]
                && var photo := old(instances)[name].photoId;
                   photos == if photo.Some? && photo.value != "" then old(photos) - {photo.value} else old(photos)
    {
      if name !in instances || !confirmed {
        return false;
      }
      var _ := gateway.Send(InstanceDelete(name));
      var photo := instances[name].photoId;
      if photo.Some? && photo.value != "" {
        photos := photos - {photo.value};
      }
      instances := instances - {name};
      persisted := instances;
      return true;
    }

    /** The manual status check from the menu: asks the gateway and brings the
        record's connection flag in line, saving only when it changed. */
    method ProbeStatus(name: string) returns (found: bool, open: bool)
      requires Valid()
      modifies this, gateway
      ensures Valid()
      ensures found == (name in old(instances))
      ensures !found ==> gateway.sent == old(gateway.sent) && instances == old(instances) && persisted == old(persisted)
      ensures found ==>
                && open == IsOpen(ReplyAt(old(gateway.replies), 0))
                && gateway.sent == old(gateway.sent) + [InstanceConnectionState(name)]
                && instances == old(instances)[name := old(instances)[name].(connected := open)]
                && persisted == if old(instances)[name].connected != open then instances else old(persisted)
      ensures photos == old(photos)
    {
      if name !in instances {
        return false, false;
      }
      open := CheckConnectionStatus(name);
      if open != instances[name].connected {
        instances := instances[name := instances[name].(connected := open)];
        persisted := instances;
      }
      return true, open;
    }

    /** Sends the invite codes one by one, counting accepted and failed joins
        and waiting ten seconds between two requests. */
    method JoinGroups(instance: string, codes: seq<string>) returns (succeeded: nat, failed: nat)
      modifies gateway, clock
      ensures succeeded == CountAccepted(old(gateway.replies), |codes|)
      ensures succeeded + failed == |codes|
      ensures gateway.sent == old(gateway.sent) + JoinRequests(instance, codes)
      ensures gateway.replies == Drop(old(gateway.replies), |codes|)
      ensures clock.now == old(clock.now) + if codes == [] then 0 else JoinDelay * (|codes| - 1)
    {
      ghost var replies := gateway.replies;
      succeeded, failed := 0, 0;
      var i := 0;
      while i < |codes|
        invariant 0 <= i <= |codes|
        invariant succeeded == CountAccepted(replies, i) && succeeded + failed == i
        invariant gateway.sent == old(gateway.sent) + JoinRequests(instance, codes[..i])
        invariant gateway.replies == Drop(replies, i)
        invariant clock.now == old(clock.now) + if i == 0 then 0 else JoinDelay * (i - 1) + (if i < |codes| then JoinDelay else 0)
      {
        var reply := gateway.Send(GroupAcceptInviteCode(instance, codes[i]));
        ReplyAtDrop(replies, i, 0);
        DropDrop(replies, i, 1);
        JoinRequestsMore(instance, codes, i);
        assert gateway.sent == old(gateway.sent) + JoinRequests(instance, codes[..i + 1]);
        if Accepted(reply) {
          succeeded := succeeded + 1;
        } else {
          failed := failed + 1;
        }
        if i < |codes| - 1 {
          clock.Sleep(JoinDelay);
        }
        i := i + 1;
      }
      assert codes[..i] == codes;
    }
  }
}
