/**
 * The message payload the bot sends: a value `Embed`, and the builder object
 * whose setters the bot calls one by one.
 */
module Embeds {
  import opened Wrappers

  /** One `{ name, value, inline }` block of an embed. */
  datatype Field = Field(name: string, value: string, inline: bool)

  /** The state of an embed: what has been set on it so far. */
  datatype Embed = Embed(
    color: Option<string>,
    title: Option<string>,
    description: Option<string>,
    fields: seq<Field>,
    timestamp: Option<int>,
    footer: Option<string>)

  /** A freshly constructed builder: nothing set, no fields. */
  const Blank: Embed := Embed(None, None, None, [], None, None)

  /** The embed builder; every setter overwrites one property, `AddFields` appends. */
  class EmbedBuilder {
    var color: Option<string>
    var title: Option<string>
    var description: Option<string>
    var fields: seq<Field>
    var timestamp: Option<int>
    var footer: Option<string>

    /** The payload this builder currently describes. */
    function Build(): Embed
      reads this
    {
      Embed(color, title, description, fields, timestamp, footer)
    }

    constructor ()
      ensures Build() == Blank
    {
      color, title, description, fields, timestamp, footer := None, None, None, [], None, None;
    }

    method SetColor(c: string)
      modifies this
      ensures Build() == old(Build()).(color := Some(c))
    {
      color := Some(c);
    }

    method SetTitle(t: string)
      modifies this
      ensures Build() == old(Build()).(title := Some(t))
    {
      title := Some(t);
    }

    method SetDescription(d: string)
      modifies this
      ensures Build() == old(Build()).(description := Some(d))
    {
      description := Some(d);
    }

    /** `setTimestamp()`: the clock reading is passed in. */
    method SetTimestamp(now: int)
      modifies this
      ensures Build() == old(Build()).(timestamp := Some(now))
    {
      timestamp := Some(now);
    }

    method SetFooter(f: string)
      modifies this
      ensures Build() == old(Build()).(footer := Some(f))
    {
      footer := Some(f);
    }

    method AddFields(fs: seq<Field>)
      modifies this
      ensures Build() == old(Build()).(fields := old(fields) + fs)
    {
      fields := fields + fs;
    }
  }
}
