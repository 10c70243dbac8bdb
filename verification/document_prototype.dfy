/** The prototype pattern's document: `clone` builds a new document from
    the receiver's title, private content and author. */
module DocumentPrototype {

  /** A read-only view of a document's three fields. */
  datatype Info = Info(title: string, content: string, author: string)

  class DocumentClass {
    var title: string
    var content: string
    var author: string

    constructor(title: string, content: string, author: string)
      ensures this.title == title && this.content == content && this.author == author
    {
      this.title := title;
      this.content := content;
      this.author := author;
    }

    function Snapshot(): (i: Info)
      reads this
      ensures i.title == title && i.content == content && i.author == author
    {
      Info(title, content, author)
    }

    /** `clone`: a new document with equal fields, the private content included. */
    method Clone() returns (c: DocumentClass)
      ensures fresh(c)
      ensures c.title == title && c.content == content && c.author == author
    {
      c := new DocumentClass(title, content, author);
    }
  }

  /** Clone, then retitle the clone: the clone keeps content and author and
      the original keeps its title. */
  method CloneThenRetitle(d: DocumentClass, newTitle: string) returns (original: Info, before: Info, copy: Info)
    ensures original == before && original == d.Snapshot()
    ensures copy == Info(newTitle, before.content, before.author)
  {
    before := d.Snapshot();
    var c := d.Clone();
    c.title := newTitle;
    original := d.Snapshot();
    copy := c.Snapshot();
  }

  /** The demo: the quote is cloned and retitled 'Nueva cotizacion'. */
  method DemoScenario() returns (document1: Info, document2: Info)
    ensures document1 == Info("Cotizacion", "500 dolares", "sebastian")
    ensures document2 == Info("Nueva cotizacion", "500 dolares", "sebastian")
  {
    var d := new DocumentClass("Cotizacion", "500 dolares", "sebastian");
    var before;
    document1, before, document2 := CloneThenRetitle(d, "Nueva cotizacion");
  }
}
