/**
 Command dispatch to the sorting actuator (`enviar_a_arduino`).

 The serial link to the actuator is opened once at start-up; when opening
 fails the program keeps running with no link. The link is modelled as an
 explicit handle whose `log` is every byte written to it so far.
 */
module Dispatch {
  import opened Wrappers
  import opened Normalization

  /** The actuator link: `Disconnected` is the source's `arduino = None`. */
  datatype Channel = Disconnected | Connected(log: seq<char>)

  /** The four normalised category names the actuator has bins for. */
  const Metal: string := "metal"
  const Plastic: string := "plastico"
  const Paper: string := "papel"
  const Organic: string := "organico"

  /** The whole wire protocol: one ASCII command byte per bin. */
  predicate IsCommandByte(b: char) {
    b == 'M' || b == 'P' || b == 'L' || b == 'O'
  }

  /** The command table, a partial map from normalised category name to command byte. */
  function CommandFor(name: string): (r: Option<char>)
    ensures r.Some? <==> name in {Metal, Plastic, Paper, Organic}
    ensures r.Some? ==> IsCommandByte(r.value) && IsNormalized(name)
  {
    if name == Metal then Some('M')
    else if name == Plastic then Some('P')
    else if name == Paper then Some('L')
    else if name == Organic then Some('O')
    else None
  }

  /** The bytes one dispatch of `category` asks for: the table's byte for its normalised name, if any. */
  function CommandsFor(category: string): (r: seq<char>)
    ensures |r| <= 1
  {
    match CommandFor(Normalize(category))
    case Some(b) => [b]
    case None => []
  }

  /**
   Appends `bytes` to a live link and leaves a missing link missing. A single
   `arduino.write(b)` is `Deliver(ch, [b])`; the write is taken to succeed.
   */
  function Deliver(ch: Channel, bytes: seq<char>): (r: Channel)
    ensures r.Connected? <==> ch.Connected?
    ensures ch.Connected? ==> r.log == ch.log + bytes
  {
    match ch
    case Disconnected => Disconnected
    case Connected(log) => Connected(log + bytes)
  }

  /**
   `enviar_a_arduino`: with no link nothing happens; otherwise the label is
   normalised and compared against the four bin names in turn.
   */
  function Send(ch: Channel, predictedClass: string): (r: Channel)
    ensures ch.Disconnected? ==> r == Disconnected
    ensures ch.Connected? ==> r.Connected?
    ensures ch.Connected? ==> ch.log <= r.log && |r.log| <= |ch.log| + 1
    ensures ch.Connected? && CommandFor(Normalize(predictedClass)) == None ==> r == ch
    ensures ch.Connected? && CommandFor(Normalize(predictedClass)).Some? ==>
              r.log == ch.log + [CommandFor(Normalize(predictedClass)).value]
  {
    if ch.Disconnected? then ch
    else
      var clase := Normalize(predictedClass);
      if clase == "metal" then Deliver(ch, ['M'])
      else if clase == "plastico" then Deliver(ch, ['P'])
      else if clase == "papel" then Deliver(ch, ['L'])
      else if clase == "organico" then Deliver(ch, ['O'])
      else ch
  }

  /** A dispatch is a delivery of the category's command bytes. */
  lemma SendIsDeliver(ch: Channel, predictedClass: string)
    ensures Send(ch, predictedClass) == Deliver(ch, CommandsFor(predictedClass))
  {
  }

  /** Every byte the table yields belongs to the wire protocol. */
  lemma CommandForAlphabet(name: string)
    ensures CommandFor(name).Some? ==> IsCommandByte(CommandFor(name).value)
    ensures CommandFor(name).Some? <==> name in {Metal, Plastic, Paper, Organic}
  {
  }

  /** Different bins get different bytes. */
  lemma CommandForInjective(a: string, b: string)
    requires CommandFor(a).Some? && CommandFor(b).Some?
    requires a != b
    ensures CommandFor(a) != CommandFor(b)
  {
  }

  /** Every bin name is already normalised, so its own spelling reaches it. */
  lemma CommandKeysAreNormalized(name: string)
    requires CommandFor(name).Some?
    ensures Normalize(name) == name
  {
    assert IsNormalized(name);
    NormalizeFixesNormalized(name);
  }

  /** With no link, dispatch is a no-op for every label. */
  lemma SendDisconnected(predictedClass: string)
    ensures Send(Disconnected, predictedClass) == Disconnected
  {
  }

  lemma SendOne(log: seq<char>, predictedClass: string, name: string, b: char)
    requires Normalize(predictedClass) == name && CommandFor(name) == Some(b)
    ensures Send(Connected(log), predictedClass) == Connected(log + [b])
  {
  }

  /** The accented spellings of the labels reach their bins. */
  lemma SendPlastico(log: seq<char>)
    ensures Send(Connected(log), "Pl\U{00E1}stico") == Connected(log + ['P'])
  {
    NormalizePlastico();
    SendOne(log, "Pl\U{00E1}stico", Plastic, 'P');
  }

  lemma SendOrganico(log: seq<char>)
    ensures Send(Connected(log), "Org\U{00E1}nico") == Connected(log + ['O'])
  {
    NormalizeOrganico();
    SendOne(log, "Org\U{00E1}nico", Organic, 'O');
  }

  /** Capitalised spellings reach their bins. */
  lemma SendMetal(log: seq<char>)
    ensures Send(Connected(log), "Metal") == Connected(log + ['M'])
    ensures Send(Connected(log), "METAL") == Connected(log + ['M'])
  {
    NormalizeCapitalised();
    SendOne(log, "Metal", Metal, 'M');
    SendOne(log, "METAL", Metal, 'M');
  }

  lemma SendPapel(log: seq<char>)
    ensures Send(Connected(log), "Papel") == Connected(log + ['L'])
  {
    NormalizeCapitalised();
    SendOne(log, "Papel", Paper, 'L');
  }

  /** A label outside the four bins sends nothing. */
  lemma SendUnmapped(log: seq<char>)
    ensures Send(Connected(log), "vidrio") == Connected(log)
  {
    assert Normalize("vidrio") == Lower("vidrio") by { NormalizeAsciiIsLower("vidrio"); }
  }
}
