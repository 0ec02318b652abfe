/** The chat embed the bot sends: a description, a colour, a list of fields and a thumbnail. */
module Embeds {
  import opened Wrappers

  datatype Colour = Blue | Red | Green | Gold

  /** One `(name, value)` field; `inline` is the chat library's flag, `True` unless given. */
  datatype Field = Field(name: string, value: string, inline: bool)

  /** The observable state of an embed. */
  datatype EmbedView = EmbedView(description: Option<string>, colour: Colour, fields: seq<Field>, thumbnail: Option<string>)

  /** An embed under construction; `add_field` and the setters change it in place. */
  class Embed {
    var description: Option<string>
    var colour: Colour
    var fields: seq<Field>
    var thumbnail: Option<string>

    function View(): EmbedView
      reads this
    {
      EmbedView(description, colour, fields, thumbnail)
    }

    constructor (description: Option<string>, colour: Colour)
      ensures View() == EmbedView(description, colour, [], None)
    {
      this.description := description;
      this.colour := colour;
      this.fields := [];
      this.thumbnail := None;
    }

    /** `add_field`: appends one field after the existing ones. */
    method AddField(name: string, value: string, inline: bool)
      modifies this`fields
      ensures fields == old(fields) + [Field(name, value, inline)]
    {
      fields := fields + [Field(name, value, inline)];
    }

    method SetDescription(description: string)
      modifies this`description
      ensures this.description == Some(description)
    {
      this.description := Some(description);
    }

    method SetColour(colour: Colour)
      modifies this`colour
      ensures this.colour == colour
    {
      this.colour := colour;
    }

    /** `set_thumbnail(url=...)`. */
    method SetThumbnail(url: string)
      modifies this`thumbnail
      ensures thumbnail == Some(url)
    {
      thumbnail := Some(url);
    }
  }
}
