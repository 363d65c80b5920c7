/** `BRNetworking.DataDirection`: which way a logged payload travels, and the tag its log line starts with. */
module DataDirections {

  datatype DataDirection = Incoming | Outgoing {

    /** The tag a payload dump starts with: a title ending in a colon and a newline. */
    function LogPrefix(): (prefix: string)
      ensures |prefix| >= 2 && prefix[|prefix| - 2..] == ":\n"
    {
      match this
      case Incoming => "Incoming JSON:\n"
      case Outgoing => "Outgoing JSON:\n"
    }
  }

  /** The two prefixes, exactly. */
  lemma LogPrefixTexts()
    ensures Incoming.LogPrefix() == "Incoming JSON:\n"
    ensures Outgoing.LogPrefix() == "Outgoing JSON:\n"
  {
  }

  /** A dump's prefix tells which direction it was logged for. */
  lemma LogPrefixDeterminesDirection(a: DataDirection, b: DataDirection)
    requires a.LogPrefix() == b.LogPrefix()
    ensures a == b
  {
    assert Incoming.LogPrefix()[0] == 'I' && Outgoing.LogPrefix()[0] == 'O';
  }
}
