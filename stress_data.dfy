// hooks/useStressData.ts — the user's wellness records: append-only logs, the
// wellness-point total, and the peer-support contacts with their chats.
module StressData {
  import opened Wrappers
  import opened Records
  import JsMath

  datatype Profile = Profile(name: string, title: string, avatar: string)

  /** The five colleagues a user can be connected with. */
  const PeerProfiles: seq<Profile> := [
    Profile("Dr. Alex Chen", "ER Physician", "AC"),
    Profile("Nurse Maya Singh", "ICU Nurse", "MS"),
    Profile("Dr. Emily Carter", "Pediatrician", "EC"),
    Profile("Leo Martinez", "Paramedic", "LM"),
    Profile("Dr. Sofia Rossi", "Cardiologist", "SR")
  ]

  /** Points awarded for every wellness activity. */
  const ActivityPoints: int := 10

  function Names(peers: seq<Peer>): (r: seq<string>)
    ensures |r| == |peers| && forall i :: 0 <= i < |peers| ==> r[i] == peers[i].name
  {
    seq(|peers|, i requires 0 <= i < |peers| => peers[i].name)
  }

  function ProfileNames(): set<string>
  {
    set p | p in PeerProfiles :: p.name
  }

  /** The profiles not yet connected, in the list's order. */
  function Available(peers: seq<Peer>): (r: seq<Profile>)
    ensures forall p :: p in r <==> p in PeerProfiles && p.name !in Names(peers)
  {
    AvailableFrom(PeerProfiles, Names(peers))
  }

  function AvailableFrom(ps: seq<Profile>, taken: seq<string>): (r: seq<Profile>)
    ensures forall p :: p in r <==> p in ps && p.name !in taken
    ensures |r| <= |ps|
  {
    if ps == [] then []
    else (if ps[0].name in taken then [] else [ps[0]]) + AvailableFrom(ps[1..], taken)
  }

  /** The first message of every new peer chat. */
  function Greeting(name: string): string
  {
    "Hey, I'm " + name + ". Glad to connect. How has your week been?"
  }

  /** The `wellnessPoints` total: the sum of all activities' points. */
  function Points(acts: seq<WellnessActivity>): int
  {
    if acts == [] then 0 else Points(acts[..|acts| - 1]) + acts[|acts| - 1].points
  }

  lemma PointsAppend(acts: seq<WellnessActivity>, a: WellnessActivity)
    ensures Points(acts + [a]) == Points(acts) + a.points
  {
    assert (acts + [a])[..|acts + [a]| - 1] == acts;
  }

  /** Activities all worth the standard points add up to that many each. */
  lemma {:induction false} PointsUniform(acts: seq<WellnessActivity>)
    requires forall i :: 0 <= i < |acts| ==> acts[i].points == ActivityPoints
    ensures Points(acts) == ActivityPoints * |acts|
    decreases |acts|
  {
    if acts != [] {
      PointsUniform(acts[..|acts| - 1]);
    }
  }

  /** The three activities of the first-run seed data (hooks/initialData.ts). */
  function SeedActivities(yesterday: Instant, threeDaysAgo: Instant): seq<WellnessActivity>
  {
    [ WellnessActivity("well-1", "5-minute meditation", 10, yesterday),
      WellnessActivity("well-2", "Completed Challenge: Drink a full glass of water every 2 hours", 10, threeDaysAgo),
      WellnessActivity("well-3", "Logged 7,823 steps", 10, yesterday) ]
  }

  lemma SeedPoints(yesterday: Instant, threeDaysAgo: Instant)
    ensures Points(SeedActivities(yesterday, threeDaysAgo)) == 30
  {
    PointsUniform(SeedActivities(yesterday, threeDaysAgo));
  }

  predicate DistinctNames(peers: seq<Peer>)
  {
    forall i, j :: 0 <= i < j < |peers| ==> peers[i].name != peers[j].name
  }

  /** A peer under a name not yet taken keeps the names distinct. */
  lemma NewNameDistinct(peers: seq<Peer>, p: Peer)
    requires DistinctNames(peers) && p.name !in Names(peers)
    ensures DistinctNames(peers + [p])
  {
    var all := peers + [p];
    forall i, j | 0 <= i < j < |all| ensures all[i].name != all[j].name {
      if j == |peers| {
        assert Names(peers)[i] == all[i].name;
      }
    }
  }

  lemma {:induction false} DistinctCard(peers: seq<Peer>)
    requires DistinctNames(peers)
    ensures |set i | 0 <= i < |peers| :: peers[i].name| == |peers|
    decreases |peers|
  {
    if peers != [] {
      var init := peers[..|peers| - 1];
      DistinctCard(init);
      var last := peers[|peers| - 1].name;
      assert (set i | 0 <= i < |peers| :: peers[i].name)
          == (set i | 0 <= i < |init| :: init[i].name) + {last};
      assert last !in (set i | 0 <= i < |init| :: init[i].name);
    }
  }

  class StressStore {
    var stressLogs: seq<StressLog>
    var sleepLogs: seq<SleepLog>
    var stepLogs: seq<StepLog>
    var eventLogs: seq<EventLog>
    var wellnessActivities: seq<WellnessActivity>
    var emotionJournal: seq<EmotionJournalEntry>
    var peers: seq<Peer>
    var peerChats: map<string, seq<PeerChatMessage>>

    /** Peers are only ever added from the profile list, each name once. */
    ghost predicate Valid()
      reads this
    {
      DistinctNames(peers) && forall i :: 0 <= i < |peers| ==> peers[i].name in ProfileNames()
    }

    function WellnessPoints(): int
      reads this
    {
      Points(wellnessActivities)
    }

    /** A first run: the seed records, no peers and no chats. */
    constructor (stress: seq<StressLog>, sleep: seq<SleepLog>, steps: seq<StepLog>,
                 events: seq<EventLog>, activities: seq<WellnessActivity>,
                 journal: seq<EmotionJournalEntry>)
      ensures Valid()
      ensures stressLogs == stress && sleepLogs == sleep && stepLogs == steps
      ensures eventLogs == events && wellnessActivities == activities && emotionJournal == journal
      ensures peers == [] && peerChats == map[]
    {
      stressLogs, sleepLogs, stepLogs, eventLogs := stress, sleep, steps, events;
      wellnessActivities, emotionJournal := activities, journal;
      peers, peerChats := [], map[];
    }

    method AddStressLog(level: real, notes: Option<string>, id: string, now: Instant)
      modifies this`stressLogs
      ensures stressLogs == old(stressLogs) + [StressLog(id, level, now, notes)]
    {
      stressLogs := stressLogs + [StressLog(id, level, now, notes)];
    }

    method AddSleepLog(hours: real, id: string, now: Instant)
      modifies this`sleepLogs
      ensures sleepLogs == old(sleepLogs) + [SleepLog(id, hours, now)]
    {
      sleepLogs := sleepLogs + [SleepLog(id, hours, now)];
    }

    method AddStepLog(steps: int, id: string, now: Instant)
      modifies this`stepLogs
      ensures stepLogs == old(stepLogs) + [StepLog(id, steps, now)]
    {
      stepLogs := stepLogs + [StepLog(id, steps, now)];
    }

    method AddEventLog(description: string, id: string, now: Instant)
      modifies this`eventLogs
      ensures eventLogs == old(eventLogs) + [EventLog(id, description, now)]
    {
      eventLogs := eventLogs + [EventLog(id, description, now)];
    }

    /** Every activity earns the standard points. */
    method AddWellnessActivity(activity: string, id: string, now: Instant)
      modifies this`wellnessActivities
      ensures wellnessActivities == old(wellnessActivities) + [WellnessActivity(id, activity, ActivityPoints, now)]
      ensures WellnessPoints() == old(WellnessPoints()) + ActivityPoints
    {
      PointsAppend(wellnessActivities, WellnessActivity(id, activity, ActivityPoints, now));
      wellnessActivities := wellnessActivities + [WellnessActivity(id, activity, ActivityPoints, now)];
    }

    method AddEmotionJournalEntry(primary: string, secondary: string, intensity: int,
                                  notes: Option<string>, id: string, now: Instant)
      modifies this`emotionJournal
      ensures emotionJournal == old(emotionJournal) + [EmotionJournalEntry(id, now, primary, secondary, intensity, notes)]
    {
      emotionJournal := emotionJournal + [EmotionJournalEntry(id, now, primary, secondary, intensity, notes)];
    }

    /** Connects a random colleague not yet connected and opens the chat with
        their greeting; once all five are connected nothing happens. */
    method AddPeer(rand: real, id: string, now: Instant)
      requires Valid() && 0.0 <= rand < 1.0
      modifies this`peers, this`peerChats
      ensures Valid()
      ensures Available(old(peers)) == [] ==> peers == old(peers) && peerChats == old(peerChats)
      ensures Available(old(peers)) != [] ==>
                var p := Available(old(peers))[JsMath.PickIndex(rand, |Available(old(peers))|)];
                peers == old(peers) + [Peer(id, p.name, p.title, p.avatar)]
                && peerChats == old(peerChats)[id := [PeerChatMessage("initial-" + id, id, FromPeer, Greeting(p.name), now)]]
    {
      var available := Available(peers);
      if |available| == 0 {
        return;
      }
      var p := available[JsMath.PickIndex(rand, |available|)];
      assert p in available;
      assert p.name in ProfileNames() && p.name !in Names(peers);
      var newPeer := Peer(id, p.name, p.title, p.avatar);
      NewNameDistinct(peers, newPeer);
      peers := peers + [newPeer];
      peerChats := peerChats[id := [PeerChatMessage("initial-" + id, id, FromPeer, Greeting(p.name), now)]];
    }

    /** Appends to the chat with peerId, starting one if there is none yet. */
    method AddPeerMessage(peerId: string, role: PeerRole, text: string, id: string, now: Instant)
      modifies this`peerChats
      ensures peerChats.Keys == old(peerChats).Keys + {peerId}
      ensures peerChats[peerId] == (if peerId in old(peerChats) then old(peerChats)[peerId] else [])
                                   + [PeerChatMessage(id, peerId, role, text, now)]
      ensures forall k :: k in old(peerChats) && k != peerId ==> peerChats[k] == old(peerChats)[k]
    {
      var current := if peerId in peerChats then peerChats[peerId] else [];
      peerChats := peerChats[peerId := current + [PeerChatMessage(id, peerId, role, text, now)]];
    }
  }

  /** At most five peers are ever connected. */
  lemma PeersBounded(peers: seq<Peer>)
    requires DistinctNames(peers) && forall i :: 0 <= i < |peers| ==> peers[i].name in ProfileNames()
    ensures |peers| <= |PeerProfiles|
  {
    DistinctCard(peers);
    var names := set i | 0 <= i < |peers| :: peers[i].name;
    assert names <= ProfileNames();
    ProfileNamesCard();
    SubsetCard(names, ProfileNames());
  }

  lemma ProfileNamesCard()
    ensures |ProfileNames()| == |PeerProfiles|
  {
    ProfileNamesDistinct();
    DistinctProfilesCard(PeerProfiles);
  }

  /** The five profiles have five different names. */
  lemma ProfileNamesDistinct()
    ensures forall i, j :: 0 <= i < j < |PeerProfiles| ==> PeerProfiles[i].name != PeerProfiles[j].name
  {
    var a, b, c, d, e := PeerProfiles[0].name, PeerProfiles[1].name, PeerProfiles[2].name,
                         PeerProfiles[3].name, PeerProfiles[4].name;
    assert b[0] != a[0] && c[4] != a[4] && c[0] != b[0];
    assert d[0] != a[0] && d[0] != b[0] && d[0] != c[0];
    assert e[4] != a[4] && e[0] != b[0] && e[4] != c[4] && e[0] != d[0];
  }

  lemma {:induction false} DistinctProfilesCard(ps: seq<Profile>)
    requires forall i, j :: 0 <= i < j < |ps| ==> ps[i].name != ps[j].name
    ensures |set p | p in ps :: p.name| == |ps|
    decreases |ps|
  {
    if ps != [] {
      var init := ps[..|ps| - 1];
      DistinctProfilesCard(init);
      var last := ps[|ps| - 1];
      assert (set p | p in ps :: p.name) == (set p | p in init :: p.name) + {last.name} by {
        assert ps == init + [last];
      }
      assert last.name !in (set p | p in init :: p.name);
    }
  }

  lemma SubsetCard(a: set<string>, b: set<string>)
    requires a <= b
    ensures |a| <= |b|
  {
    assert b == a + (b - a);
  }

  /** Adding stops exactly when every profile's name is taken. */
  lemma NoneAvailableIff(peers: seq<Peer>)
    ensures Available(peers) == [] <==> forall p :: p in PeerProfiles ==> p.name in Names(peers)
  {
    if Available(peers) != [] {
      assert Available(peers)[0] in Available(peers);
    }
  }
}
