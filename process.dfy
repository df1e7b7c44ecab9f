/**
 * The fulfilment routine of api/process.py. `processar_pedido` sends the order
 * email, generates a line-art image for every listed file that exists and is an
 * image, writes each as `gerado_<stem>.png`, and only then marks the order
 * processed; any exception is logged and leaves the status alone, so `run` picks the
 * order up again next time. The mailer and the image model are inputs (`Services`).
 */
module Process {
  import opened Wrappers
  import opened Text
  import opened Files
  import opened Store
  import opened Seqs
  import Gemini

  const ImageExtensions: seq<string> := [".jpg", ".jpeg", ".png", ".webp"]
  const OutputPrefix := "gerado_"

  /**
   * The outside world of one run: `mail(p)` is None when `enviar_email(p)` returns and
   * the exception's text when it raises; `sdk(image, model, n)` is the n-th SDK call
   * of `gerar_imagem` for that image, made with the two environment variables given;
   * `generate(image)` is what that `gerar_imagem` call returns or raises.
   */
  datatype Services = Services(
    mail: Order -> Option<string>,
    apiKeyEnv: Option<string>,
    modelEnv: Option<string>,
    sdk: (Bytes, string, nat) -> Gemini.SdkOutcome,
    generate: Bytes -> Result<Bytes, Gemini.GenError>)

  /** `path.suffix.lower() in EXTENSOES_IMAGEM`. */
  predicate IsImageName(name: string) {
    AsciiLower(Suffix(name)) in ImageExtensions
  }

  /** `f"gerado_{path.stem}.png"`. */
  function OutputName(name: string): string {
    OutputPrefix + Stem(name) + ".png"
  }

  /** A generated file's own name is an image name whose stem records its source. */
  lemma OutputNameIsImage(name: string)
    ensures Suffix(OutputName(name)) == ".png" && IsImageName(OutputName(name))
    ensures Stem(OutputName(name)) == OutputPrefix + Stem(name)
  {
    var head := OutputPrefix + Stem(name);
    assert head[0] == 'g';
    SuffixOfDotted(head, "png");
    assert OutputName(name) == head + "." + "png";
    PngIsImageSuffix();
  }

  lemma PngIsImageSuffix()
    ensures AsciiLower(".png") in ImageExtensions
  {
    var lowered := AsciiLower(".png");
    assert lowered[0] == '.' && lowered[1] == 'p' && lowered[2] == 'n' && lowered[3] == 'g';
    assert lowered == ImageExtensions[2];
  }

  /** The generator for one image: `gerar_imagem(image_bytes, PROMPT_LINE_ART)`. */
  function GenerateFor(image: Bytes, svc: Services): Gemini.Generation {
    Gemini.Generate(svc.apiKeyEnv, svc.modelEnv, (model: string, n: nat) => svc.sdk(image, model, n))
  }

  /** `generate` is `gerar_imagem` over the given SDK. */
  ghost predicate GeminiBacked(svc: Services) {
    forall image :: svc.generate(image) == GenerateFor(image, svc).result
  }

  /** The folder after the file loop, the names sent to the generator, and the exception if one escaped. */
  datatype Production = Production(files: map<(string, string), Bytes>, attempted: seq<string>, failure: Option<string>)

  /**
   * The `for filename in file_names` loop from `names` on, with `files` the folder so
   * far and `attempted` the names already sent to the generator.
   */
  function Produce(orderId: string, names: seq<string>, files: map<(string, string), Bytes>,
                   attempted: seq<string>, svc: Services): Production
    decreases |names|
  {
    if names == [] then Production(files, attempted, None)
    else
      var name := names[0];
      if (orderId, name) !in files || !IsImageName(name) then Produce(orderId, names[1..], files, attempted, svc)
      else
        match svc.generate(files[(orderId, name)])
        case Err(e) => Production(files, attempted + [name], Some(e.Message()))
        case Ok(png) => Produce(orderId, names[1..], files[(orderId, OutputName(name)) := png], attempted + [name], svc)
  }

  /** The body of the `try`: the email first, then the file loop. */
  function Fulfil(pedido: Order, files: map<(string, string), Bytes>, svc: Services): Production {
    match svc.mail(pedido)
    case Some(e) => Production(files, [], Some(e))
    case None => Produce(pedido.orderId, pedido.fileNames, files, [], svc)
  }

  /** The line printed and logged by the `except` branch. */
  function FailureLine(orderId: string, message: string): string {
    "Pedido " + orderId + " - falha: " + message
  }

  /** The orders, the uploads folder and the failure log. */
  datatype World = World(orders: map<string, Order>, files: map<(string, string), Bytes>, log: seq<string>)

  /** `processar_pedido(pedido)` on a world; `now` is the clock. */
  function ProcessOne(w: World, pedido: Order, svc: Services, now: string): World {
    if pedido.orderId == "" then w
    else
      var p := Fulfil(pedido, w.files, svc);
      match p.failure
      case Some(e) => World(w.orders, p.files, w.log + [FailureLine(pedido.orderId, e)])
      case None =>
        var orders := if pedido.orderId in w.orders
          then w.orders[pedido.orderId := WithStatus(w.orders[pedido.orderId], Processed, now)]
          else w.orders;
        World(orders, p.files, w.log)
  }

  /** `run`: `processar_pedido` on each listed order in turn. */
  function RunAll(w: World, pendentes: seq<Order>, svc: Services, now: string): World
    decreases |pendentes|
  {
    if pendentes == [] then w else RunAll(ProcessOne(w, pendentes[0], svc, now), pendentes[1..], svc, now)
  }

  // ---------------------------------------------------------------------------
  // Properties of the file loop.

  /** The names sent to the generator extend `attempted`. */
  lemma {:induction false} ProduceExtends(orderId: string, names: seq<string>, files: map<(string, string), Bytes>,
                                          attempted: seq<string>, svc: Services)
    ensures var p := Produce(orderId, names, files, attempted, svc);
      |attempted| <= |p.attempted| && p.attempted[..|attempted|] == attempted
    decreases |names|
  {
    if names != [] {
      var name := names[0];
      if (orderId, name) !in files || !IsImageName(name) {
        ProduceExtends(orderId, names[1..], files, attempted, svc);
      } else {
        var g := svc.generate(files[(orderId, name)]);
        if g.Ok? {
          var files' := files[(orderId, OutputName(name)) := g.value];
          ProduceExtends(orderId, names[1..], files', attempted + [name], svc);
          var p := Produce(orderId, names[1..], files', attempted + [name], svc);
          assert p.attempted[..|attempted|] == (attempted + [name])[..|attempted|];
        }
      }
    }
  }

  /** The names sent to the generator after `attempted` are a subsequence of `names`. */
  lemma {:induction false} ProduceInOrder(orderId: string, names: seq<string>, files: map<(string, string), Bytes>,
                                          attempted: seq<string>, svc: Services)
    ensures var p := Produce(orderId, names, files, attempted, svc);
      |attempted| <= |p.attempted| && Subseq(p.attempted[|attempted|..], names)
    decreases |names|
  {
    ProduceExtends(orderId, names, files, attempted, svc);
    var p := Produce(orderId, names, files, attempted, svc);
    if names == [] {
      assert p.attempted[|attempted|..] == [];
    } else {
      var name := names[0];
      assert [name] + names[1..] == names;
      if (orderId, name) !in files || !IsImageName(name) {
        assert p == Produce(orderId, names[1..], files, attempted, svc);
        ProduceInOrder(orderId, names[1..], files, attempted, svc);
        SubseqSkip(p.attempted[|attempted|..], names[1..], name);
      } else {
        var g := svc.generate(files[(orderId, name)]);
        if g.Ok? {
          var files' := files[(orderId, OutputName(name)) := g.value];
          assert p == Produce(orderId, names[1..], files', attempted + [name], svc);
          ProduceInOrder(orderId, names[1..], files', attempted + [name], svc);
          ProduceExtends(orderId, names[1..], files', attempted + [name], svc);
          var rest := p.attempted[|attempted|..];
          assert p.attempted[..|attempted| + 1] == attempted + [name];
          assert rest[0] == (attempted + [name])[|attempted|] == name;
          assert rest[1..] == p.attempted[|attempted| + 1..];
        } else {
          assert p.attempted == attempted + [name];
          assert p.attempted[|attempted|..] == [name];
          assert [name][1..] == [];
        }
      }
    }
  }

  /**
   * The names sent to the generator extend `attempted`, follow the order of `names`
   * with each listed name tried at most as often as it is listed, and each is a listed
   * name that is an image and is in the folder.
   */
  lemma {:induction false} ProduceAttempts(orderId: string, names: seq<string>, files: map<(string, string), Bytes>,
                                           attempted: seq<string>, svc: Services)
    ensures var p := Produce(orderId, names, files, attempted, svc);
      && |attempted| <= |p.attempted| && p.attempted[..|attempted|] == attempted
      && Subseq(p.attempted[|attempted|..], names)
      && forall j :: |attempted| <= j < |p.attempted| ==>
           p.attempted[j] in names && IsImageName(p.attempted[j]) && (orderId, p.attempted[j]) in p.files
    decreases |names|
  {
    ProduceExtends(orderId, names, files, attempted, svc);
    ProduceInOrder(orderId, names, files, attempted, svc);
    if names != [] {
      var name := names[0];
      var p := Produce(orderId, names, files, attempted, svc);
      if (orderId, name) !in files || !IsImageName(name) {
        ProduceAttempts(orderId, names[1..], files, attempted, svc);
        assert p == Produce(orderId, names[1..], files, attempted, svc);
        assert forall n :: n in names[1..] ==> n in names;
      } else {
        var g := svc.generate(files[(orderId, name)]);
        if g.Ok? {
          var files' := files[(orderId, OutputName(name)) := g.value];
          assert p == Produce(orderId, names[1..], files', attempted + [name], svc);
          ProduceAttempts(orderId, names[1..], files', attempted + [name], svc);
          ProduceFilesGrow(orderId, names[1..], files', attempted + [name], svc);
          assert p.attempted[..|attempted| + 1] == attempted + [name];
          forall j | |attempted| <= j < |p.attempted|
            ensures p.attempted[j] in names && IsImageName(p.attempted[j]) && (orderId, p.attempted[j]) in p.files
          {
            if j == |attempted| {
              assert p.attempted[j] == (attempted + [name])[j] == name;
            } else {
              assert p.attempted[j] in names[1..];
            }
          }
        } else {
          assert p == Production(files, attempted + [name], Some(g.error.Message()));
        }
      }
    }
  }

  /** The loop only adds or overwrites files, it never removes one. */
  lemma {:induction false} ProduceFilesGrow(orderId: string, names: seq<string>, files: map<(string, string), Bytes>,
                                            attempted: seq<string>, svc: Services)
    ensures files.Keys <= Produce(orderId, names, files, attempted, svc).files.Keys
    decreases |names|
  {
    if names != [] {
      var name := names[0];
      if (orderId, name) !in files || !IsImageName(name) {
        ProduceFilesGrow(orderId, names[1..], files, attempted, svc);
      } else {
        var g := svc.generate(files[(orderId, name)]);
        if g.Ok? {
          ProduceFilesGrow(orderId, names[1..], files[(orderId, OutputName(name)) := g.value], attempted + [name], svc);
        }
      }
    }
  }

  /** When nothing failed, every listed image that was in the folder has its generated counterpart. */
  lemma {:induction false} ProduceComplete(orderId: string, names: seq<string>, files: map<(string, string), Bytes>,
                                           attempted: seq<string>, svc: Services, n: string)
    requires Produce(orderId, names, files, attempted, svc).failure.None?
    requires n in names && (orderId, n) in files && IsImageName(n)
    ensures (orderId, OutputName(n)) in Produce(orderId, names, files, attempted, svc).files
    decreases |names|
  {
    var name := names[0];
    if (orderId, name) !in files || !IsImageName(name) {
      ProduceComplete(orderId, names[1..], files, attempted, svc, n);
    } else {
      var g := svc.generate(files[(orderId, name)]);
      var files' := files[(orderId, OutputName(name)) := g.value];
      if n == name {
        ProduceFilesGrow(orderId, names[1..], files', attempted + [name], svc);
      } else {
        ProduceComplete(orderId, names[1..], files', attempted + [name], svc, n);
      }
    }
  }

  /**
   * A name reaches the generator only if its file was in the folder before the loop or
   * is the `gerado_` output of a name listed with it.
   */
  lemma AttemptedWereThere(orderId: string, names: seq<string>, files: map<(string, string), Bytes>,
                           svc: Services, n: string)
    requires n in Produce(orderId, names, files, [], svc).attempted
    ensures n in names && IsImageName(n)
    ensures (orderId, n) in files || exists m :: m in names && n == OutputName(m)
  {
    ProduceAttempts(orderId, names, files, [], svc);
    var p := Produce(orderId, names, files, [], svc);
    var j :| 0 <= j < |p.attempted| && p.attempted[j] == n;
    if (orderId, n) !in files {
      GeneratedFilesAreOutputs(orderId, names, files, [], svc, n);
    }
  }

  /** `content` is what the generator returned for some image. */
  ghost predicate Generated(svc: Services, content: Bytes) {
    exists image :: svc.generate(image) == Ok(content)
  }

  /** A file that holds generator output still holds generator output after the loop. */
  lemma {:induction false} ProduceKeepsGenerated(orderId: string, names: seq<string>, files: map<(string, string), Bytes>,
                                                 attempted: seq<string>, svc: Services, n: string)
    requires (orderId, n) in files && Generated(svc, files[(orderId, n)])
    ensures var p := Produce(orderId, names, files, attempted, svc);
      (orderId, n) in p.files && Generated(svc, p.files[(orderId, n)])
    decreases |names|
  {
    if names != [] {
      var name := names[0];
      if (orderId, name) !in files || !IsImageName(name) {
        ProduceKeepsGenerated(orderId, names[1..], files, attempted, svc, n);
      } else {
        var image := files[(orderId, name)];
        var g := svc.generate(image);
        if g.Ok? {
          var files' := files[(orderId, OutputName(name)) := g.value];
          assert Generated(svc, files'[(orderId, n)]) by {
            if n == OutputName(name) {
              assert svc.generate(image) == Ok(files'[(orderId, n)]);
            }
          }
          ProduceKeepsGenerated(orderId, names[1..], files', attempted + [name], svc, n);
        }
      }
    }
  }

  /**
   * A file the loop adds or rewrites is the `gerado_` counterpart of a listed name, and
   * what it holds is what the generator returned for some image.
   */
  lemma {:induction false} GeneratedFilesAreOutputs(orderId: string, names: seq<string>, files: map<(string, string), Bytes>,
                                                    attempted: seq<string>, svc: Services, n: string)
    requires var p := Produce(orderId, names, files, attempted, svc);
      (orderId, n) in p.files && ((orderId, n) !in files || p.files[(orderId, n)] != files[(orderId, n)])
    ensures exists m :: m in names && n == OutputName(m)
    ensures Generated(svc, Produce(orderId, names, files, attempted, svc).files[(orderId, n)])
    decreases |names|
  {
    var name := names[0];
    if (orderId, name) !in files || !IsImageName(name) {
      GeneratedFilesAreOutputs(orderId, names[1..], files, attempted, svc, n);
      var m :| m in names[1..] && n == OutputName(m);
      assert m in names;
    } else {
      var image := files[(orderId, name)];
      var g := svc.generate(image);
      if g.Ok? {
        var files' := files[(orderId, OutputName(name)) := g.value];
        if n == OutputName(name) {
          assert svc.generate(image) == Ok(files'[(orderId, n)]);
          ProduceKeepsGenerated(orderId, names[1..], files', attempted + [name], svc, n);
        } else {
          GeneratedFilesAreOutputs(orderId, names[1..], files', attempted + [name], svc, n);
          var m :| m in names[1..] && n == OutputName(m);
          assert m in names;
        }
      }
    }
  }

  /**
   * The loop stopped on an exception from the generator: some name was sent after the
   * first `from`, the last one sent is in the folder, the generator raised on its
   * bytes, and the failure is that error's text.
   */
  predicate FailedOnLast(orderId: string, p: Production, from: nat, svc: Services) {
    p.failure.Some? ==>
      && from < |p.attempted|
      && (orderId, p.attempted[|p.attempted| - 1]) in p.files
      && var g := svc.generate(p.files[(orderId, p.attempted[|p.attempted| - 1])]);
         g.Err? && p.failure == Some(g.error.Message())
  }

  /** Every name sent after the first `from` has its `gerado_` file, holding generator output. */
  ghost predicate OutputsWritten(orderId: string, p: Production, from: nat, svc: Services) {
    forall j :: from <= j < |p.attempted| ==>
      (orderId, OutputName(p.attempted[j])) in p.files && Generated(svc, p.files[(orderId, OutputName(p.attempted[j]))])
  }

  /**
   * An exception from the loop is the generator's: the last name sent is in the folder,
   * the generator raised on its bytes, and the failure is that error's text.
   */
  lemma {:induction false} ProduceFailureCause(orderId: string, names: seq<string>, files: map<(string, string), Bytes>,
                                               attempted: seq<string>, svc: Services)
    ensures FailedOnLast(orderId, Produce(orderId, names, files, attempted, svc), |attempted|, svc)
    decreases |names|
  {
    if names != [] {
      var name := names[0];
      var p := Produce(orderId, names, files, attempted, svc);
      if (orderId, name) !in files || !IsImageName(name) {
        assert p == Produce(orderId, names[1..], files, attempted, svc);
        ProduceFailureCause(orderId, names[1..], files, attempted, svc);
      } else {
        var g := svc.generate(files[(orderId, name)]);
        if g.Ok? {
          var files' := files[(orderId, OutputName(name)) := g.value];
          assert p == Produce(orderId, names[1..], files', attempted + [name], svc);
          ProduceFailureCause(orderId, names[1..], files', attempted + [name], svc);
        } else {
          assert p == Production(files, attempted + [name], Some(g.error.Message()));
          assert p.attempted[|p.attempted| - 1] == name;
        }
      }
    }
  }

  /**
   * When nothing raised, every name sent to the generator has its `gerado_` file, and
   * that file holds what the generator returned for some image.
   */
  lemma {:induction false} ProduceSuccessOutputs(orderId: string, names: seq<string>, files: map<(string, string), Bytes>,
                                                 attempted: seq<string>, svc: Services)
    ensures var p := Produce(orderId, names, files, attempted, svc);
      p.failure.None? ==> OutputsWritten(orderId, p, |attempted|, svc)
    decreases |names|
  {
    if names != [] {
      var name := names[0];
      var p := Produce(orderId, names, files, attempted, svc);
      if (orderId, name) !in files || !IsImageName(name) {
        assert p == Produce(orderId, names[1..], files, attempted, svc);
        ProduceSuccessOutputs(orderId, names[1..], files, attempted, svc);
      } else {
        var image := files[(orderId, name)];
        var g := svc.generate(image);
        if g.Ok? {
          var files' := files[(orderId, OutputName(name)) := g.value];
          assert p == Produce(orderId, names[1..], files', attempted + [name], svc);
          if p.failure.None? {
            ProduceSuccessOutputs(orderId, names[1..], files', attempted + [name], svc);
            ProduceExtends(orderId, names[1..], files', attempted + [name], svc);
            assert svc.generate(image) == Ok(files'[(orderId, OutputName(name))]);
            ProduceKeepsGenerated(orderId, names[1..], files', attempted + [name], svc, OutputName(name));
            assert p.attempted[..|attempted| + 1] == attempted + [name];
            forall j | |attempted| <= j < |p.attempted|
              ensures (orderId, OutputName(p.attempted[j])) in p.files
                   && Generated(svc, p.files[(orderId, OutputName(p.attempted[j]))])
            {
              if j == |attempted| {
                assert p.attempted[j] == (attempted + [name])[j] == name;
              }
            }
          }
        }
      }
    }
  }

  // ---------------------------------------------------------------------------
  // Properties of `processar_pedido` and `run`.

  /** A pedido without an order id changes nothing. */
  lemma EmptyOrderIdIsNoop(w: World, pedido: Order, svc: Services, now: string)
    requires pedido.orderId == ""
    ensures ProcessOne(w, pedido, svc, now) == w
  {
  }

  /** A failed email stops everything: no generation, no file written, no status change, one log line. */
  lemma MailFailureStopsProduction(w: World, pedido: Order, svc: Services, now: string, e: string)
    requires pedido.orderId != "" && svc.mail(pedido) == Some(e)
    ensures Fulfil(pedido, w.files, svc).attempted == []
    ensures ProcessOne(w, pedido, svc, now) == World(w.orders, w.files, w.log + [FailureLine(pedido.orderId, e)])
  {
  }

  /**
   * The status becomes "processado" when nothing raised; otherwise the orders are
   * untouched and one failure line is appended. The folder keeps whatever the loop
   * wrote before an exception.
   */
  lemma ProcessedIffNoFailure(w: World, pedido: Order, svc: Services, now: string)
    requires pedido.orderId != "" && pedido.orderId in w.orders
    ensures var w' := ProcessOne(w, pedido, svc, now);
      var p := Fulfil(pedido, w.files, svc);
      && w'.files == p.files
      && (p.failure.None? ==> w'.orders == w.orders[pedido.orderId := WithStatus(w.orders[pedido.orderId], Processed, now)])
      && (p.failure.None? ==> w'.orders[pedido.orderId].status == Processed && w'.log == w.log)
      && (p.failure.Some? ==> w'.orders == w.orders && w'.log == w.log + [FailureLine(pedido.orderId, p.failure.value)])
  {
  }

  /** A failed order that was ready for production stays in the listing and is retried by the next run. */
  lemma FailedOrderStaysListed(ids: seq<string>, w: World, i: nat, svc: Services, now: string)
    requires KeyOrder(ids, w.orders) && i < |ids| && ReadyForProduction(w.orders[ids[i]])
    requires Fulfil(Entry(ids, w.orders, i), w.files, svc).failure.Some?
    ensures var w' := ProcessOne(w, Entry(ids, w.orders, i), svc, now);
      Entry(ids, w'.orders, i) in ListPendingProduction(ids, w'.orders)
  {
  }

  /**
   * `processar_pedido` does not look at `pagamento`: an unpaid order handed to it with a
   * working mailer and no files is marked processed all the same.
   */
  lemma NoPaymentCheckInProcessarPedido(w: World, pedido: Order, svc: Services, now: string)
    requires pedido.orderId != "" && pedido.orderId in w.orders && pedido.fileNames == []
    requires svc.mail(pedido) == None
    requires w.orders[pedido.orderId].pagamento != PaymentConfirmed
    ensures ProcessOne(w, pedido, svc, now).orders[pedido.orderId].status == Processed
  {
  }

  /** One `processar_pedido` changes at most its own order, and only to "processado". */
  lemma ProcessOneOrders(w: World, pedido: Order, svc: Services, now: string)
    ensures var w' := ProcessOne(w, pedido, svc, now);
      && w'.orders.Keys == w.orders.Keys
      && forall k :: k in w.orders ==>
           w'.orders[k] == w.orders[k] || (k == pedido.orderId && w'.orders[k] == WithStatus(w.orders[k], Processed, now))
  {
  }

  /**
   * Over a run, each order is either unchanged or marked processed, and only an order
   * handed to `processar_pedido` can be marked.
   */
  lemma {:induction false} RunChangesOnlyListed(w: World, pendentes: seq<Order>, svc: Services, now: string)
    ensures var w' := RunAll(w, pendentes, svc, now);
      && w'.orders.Keys == w.orders.Keys
      && forall k :: k in w.orders ==>
           (w'.orders[k] == w.orders[k] || w'.orders[k] == WithStatus(w.orders[k], Processed, now))
           && (w'.orders[k] != w.orders[k] ==> exists j :: 0 <= j < |pendentes| && pendentes[j].orderId == k)
    decreases |pendentes|
  {
    if pendentes != [] {
      var w1 := ProcessOne(w, pendentes[0], svc, now);
      ProcessOneOrders(w, pendentes[0], svc, now);
      RunChangesOnlyListed(w1, pendentes[1..], svc, now);
      var w' := RunAll(w, pendentes, svc, now);
      forall k | k in w.orders
        ensures (w'.orders[k] == w.orders[k] || w'.orders[k] == WithStatus(w.orders[k], Processed, now))
        ensures w'.orders[k] != w.orders[k] ==> exists j :: 0 <= j < |pendentes| && pendentes[j].orderId == k
      {
        assert w1.orders[k] == w.orders[k] || w1.orders[k] == WithStatus(w.orders[k], Processed, now);
        assert WithStatus(WithStatus(w.orders[k], Processed, now), Processed, now) == WithStatus(w.orders[k], Processed, now);
        if w'.orders[k] != w.orders[k] {
          if w1.orders[k] != w.orders[k] {
            assert pendentes[0].orderId == k;
          } else {
            var j :| 0 <= j < |pendentes[1..]| && pendentes[1..][j].orderId == k;
            assert pendentes[j + 1].orderId == k;
          }
        }
      }
    }
  }

  /**
   * The payment gate of `run`: an order can become "processado" only if it was paid and
   * pending when the store was listed.
   */
  lemma RunProcessesOnlyPaid(ids: seq<string>, w: World, svc: Services, now: string, k: string)
    requires KeyOrder(ids, w.orders) && k in w.orders
    ensures var w' := RunAll(w, ListPendingProduction(ids, w.orders), svc, now);
      k in w'.orders && (w'.orders[k] != w.orders[k] ==> ReadyForProduction(w.orders[k]) && w'.orders[k].status == Processed)
  {
    var pendentes := ListPendingProduction(ids, w.orders);
    RunChangesOnlyListed(w, pendentes, svc, now);
    var w' := RunAll(w, pendentes, svc, now);
    if w'.orders[k] != w.orders[k] {
      var j :| 0 <= j < |pendentes| && pendentes[j].orderId == k;
      assert pendentes[j] in pendentes;
      var i :| 0 <= i < |ids| && ReadyForProduction(w.orders[ids[i]]) && pendentes[j] == Entry(ids, w.orders, i);
      assert ids[i] == k;
    }
  }

  // ---------------------------------------------------------------------------
  // The routine itself, on the store and the uploads folder.

  /** The `try` body's file loop, writing into the uploads folder. */
  method GenerateImages(uploads: UploadsDir, orderId: string, names: seq<string>, svc: Services)
    returns (attempted: seq<string>, failure: Option<string>)
    requires GeminiBacked(svc)
    modifies uploads
    ensures Production(uploads.files, attempted, failure) == Produce(orderId, names, old(uploads.files), [], svc)
  {
    attempted := [];
    var i := 0;
    while i < |names|
      invariant 0 <= i <= |names|
      invariant Produce(orderId, names[i..], uploads.files, attempted, svc) == Produce(orderId, names, old(uploads.files), [], svc)
    {
      var name := names[i];
      assert names[i..][1..] == names[i + 1..];
      if !uploads.Exists(orderId, name) || !IsImageName(name) {
        i := i + 1;
        continue;
      }
      var image := uploads.files[(orderId, name)];
      var result, _ := Gemini.GerarImagem(svc.apiKeyEnv, svc.modelEnv, (model: string, n: nat) => svc.sdk(image, model, n));
      assert result == svc.generate(image);
      attempted := attempted + [name];
      if result.Err? {
        return attempted, Some(result.error.Message());
      }
      uploads.WriteBytes(orderId, OutputName(name), result.value);
      i := i + 1;
    }
    failure := None;
  }

  /** `processar_pedido`; returns the lines appended to the failure log. */
  method ProcessarPedido(store: OrderStore, uploads: UploadsDir, pedido: Order, svc: Services, now: string)
    returns (logged: seq<string>)
    requires store.Valid() && GeminiBacked(svc)
    modifies store, uploads
    ensures store.Valid() && store.ids == old(store.ids)
    ensures World(store.orders, uploads.files, logged) == ProcessOne(World(old(store.orders), old(uploads.files), []), pedido, svc, now)
  {
    if pedido.orderId == "" {
      return [];
    }
    var mailError := svc.mail(pedido);
    if mailError.Some? {
      return [FailureLine(pedido.orderId, mailError.value)];
    }
    var _, failure := GenerateImages(uploads, pedido.orderId, pedido.fileNames, svc);
    if failure.Some? {
      return [FailureLine(pedido.orderId, failure.value)];
    }
    var _ := store.UpdateOrderStatus(pedido.orderId, Processed, now);
    return [];
  }

  /** `run`: lists the pending orders once, then processes them in that order. */
  method Run(store: OrderStore, uploads: UploadsDir, svc: Services, now: string)
    returns (logged: seq<string>)
    requires store.Valid() && GeminiBacked(svc)
    modifies store, uploads
    ensures store.Valid() && store.ids == old(store.ids)
    ensures World(store.orders, uploads.files, logged)
      == RunAll(World(old(store.orders), old(uploads.files), []), ListPendingProduction(old(store.ids), old(store.orders)), svc, now)
  {
    var pendentes := store.ListPending();
    logged := [];
    if pendentes == [] {
      return;
    }
    ghost var start := World(store.orders, uploads.files, []);
    var i := 0;
    while i < |pendentes|
      invariant 0 <= i <= |pendentes|
      invariant store.Valid() && store.ids == old(store.ids)
      invariant RunAll(World(store.orders, uploads.files, logged), pendentes[i..], svc, now) == RunAll(start, pendentes, svc, now)
    {
      ghost var before := World(store.orders, uploads.files, logged);
      var lines := ProcessarPedido(store, uploads, pendentes[i], svc, now);
      logged := logged + lines;
      LogAppends(before, pendentes[i], svc, now, lines);
      assert pendentes[i..][1..] == pendentes[i + 1..];
      i := i + 1;
    }
  }

  /** `processar_pedido` on a world with a log appends to that log and does nothing else with it. */
  lemma LogAppends(w: World, pedido: Order, svc: Services, now: string, lines: seq<string>)
    requires World(ProcessOne(World(w.orders, w.files, []), pedido, svc, now).orders,
                   ProcessOne(World(w.orders, w.files, []), pedido, svc, now).files, lines)
             == ProcessOne(World(w.orders, w.files, []), pedido, svc, now)
    ensures ProcessOne(w, pedido, svc, now) == World(ProcessOne(World(w.orders, w.files, []), pedido, svc, now).orders,
                                                     ProcessOne(World(w.orders, w.files, []), pedido, svc, now).files,
                                                     w.log + lines)
  {
  }
}
