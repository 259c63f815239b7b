// The record shapes of types.ts that several components share.
module Records {
  import opened Wrappers

  /** A point in time in milliseconds since the epoch; the source stores it as
      the ISO-8601 text of that instant. */
  type Instant = int

  datatype StressLog = StressLog(id: string, level: real, timestamp: Instant, notes: Option<string>)
  datatype SleepLog = SleepLog(id: string, hours: real, timestamp: Instant)
  datatype StepLog = StepLog(id: string, steps: int, timestamp: Instant)
  datatype EventLog = EventLog(id: string, description: string, timestamp: Instant)
  datatype WellnessActivity = WellnessActivity(id: string, activity: string, points: int, timestamp: Instant)
  datatype EmotionJournalEntry = EmotionJournalEntry(
    id: string, timestamp: Instant, primaryEmotion: string, secondaryEmotion: string,
    intensity: int, notes: Option<string>)

  datatype ChatRole = User | Model | System
  datatype ChatMessage = ChatMessage(id: string, role: ChatRole, text: string, timestamp: Instant)

  datatype Peer = Peer(id: string, name: string, title: string, avatar: string)
  datatype PeerRole = FromUser | FromPeer
  datatype PeerChatMessage = PeerChatMessage(id: string, peerId: string, role: PeerRole, text: string, timestamp: Instant)
}
