/**
 * The project cards: constant project data and each card's image carousel,
 * whose index moves forwards and backwards modulo the number of images.
 */
module Projects {
  import opened Arith

  datatype Project = Project(
    title: string,
    description: string,
    images: seq<string>,
    technologies: seq<string>,
    github: string,
    live: string,
    features: seq<string>)

  const AllProjects: seq<Project> := [
    Project(
      "Gemini AI Chatbot",
      "An advanced chatbot powered by Google's Gemini AI, featuring natural language processing and context-aware responses.",
      ["https://images.unsplash.com/photo-1677442136019-21780ecad995",
       "https://images.unsplash.com/photo-1677442136019-21780ecad996",
       "https://images.unsplash.com/photo-1677442136019-21780ecad997"],
      ["React", "TypeScript", "Gemini AI", "Node.js"],
      "#",
      "#",
      ["Natural Language Processing", "Context-aware responses", "Multi-modal interactions", "Real-time processing"]),
    Project(
      "Telegram-Gemini-Bot",
      "A Telegram bot integrated with Gemini AI for real-time image analysis and intelligent conversations.",
      ["https://images.unsplash.com/photo-1611746872915-64382b5c76da",
       "https://images.unsplash.com/photo-1611746872915-64382b5c76db",
       "https://images.unsplash.com/photo-1611746872915-64382b5c76dc"],
      ["Python", "Telegram API", "Gemini AI", "Docker"],
      "https://github.com/Remy2404/Telegram-Gemini-Bot",
      "https://t.me/Gemini_AIAssistBot",
      ["Image Analysis", "Real-time Processing", "Multi-language Support", "Automated Responses"]),
    Project(
      "E-Commerce Platform",
      "Full-stack e-commerce solution with user authentication, product management, and payment integration.",
      ["https://images.unsplash.com/photo-1557821552-17105176677c",
       "https://images.unsplash.com/photo-1557821552-17105176677d",
       "https://images.unsplash.com/photo-1557821552-17105176677e"],
      ["React", "Node.js", "MongoDB", "Express"],
      "https://github.com/Remy2404/Gemini-ai-completed-pp",
      "gemini-ai-completed-pp.vercel.app",
      ["User Authentication", "Payment Integration", "Product Management", "Order Tracking"])
  ]

  /** The carousel index every card starts at. */
  const InitialImage: int := 0

  /** Every project has exactly three images, so every carousel is non-empty. */
  lemma ThreeImagesEach()
    ensures forall p :: p in AllProjects ==> |p.images| == 3
  {
  }

  /** JavaScript's `%`: the remainder takes the sign of the dividend. */
  function JsRem(a: int, n: int): (r: int)
    requires n > 0
    ensures a >= 0 ==> 0 <= r < n && r == a % n
    ensures a < 0 ==> -n < r <= 0
    ensures (a - r) % n == 0
  {
    if a >= 0 then
      ModUnique(a - a % n, n, a / n, 0);
      a % n
    else
      ModUnique(a + (-a) % n, n, -((-a) / n), 0);
      -((-a) % n)
  }

  /** `nextImage`: `(prev + 1) % images.length`. */
  function NextImage(prev: int, n: int): (r: int)
    requires n > 0
    ensures 0 <= prev < n ==> 0 <= r < n
    ensures 0 <= prev < n - 1 ==> r == prev + 1
    ensures prev == n - 1 ==> r == 0
  {
    JsRem(prev + 1, n)
  }

  /** `prevImage`: `(prev - 1 + images.length) % images.length`. */
  function PrevImage(prev: int, n: int): (r: int)
    requires n > 0
    ensures 0 <= prev < n ==> 0 <= r < n
    ensures 0 < prev < n ==> r == prev - 1
    ensures prev == 0 ==> r == n - 1
  {
    JsRem(prev - 1 + n, n)
  }

  /** Each button undoes the other. */
  lemma PrevUndoesNext(prev: int, n: int)
    requires 0 <= prev < n
    ensures PrevImage(NextImage(prev, n), n) == prev
    ensures NextImage(PrevImage(prev, n), n) == prev
  {
  }

  /** The index after `k` presses of the next button. */
  function Forward(prev: int, n: int, k: nat): int
    requires n > 0
  {
    if k == 0 then prev else NextImage(Forward(prev, n, k - 1), n)
  }

  /** `k` presses of next move the index `k` places round the carousel. */
  lemma {:induction false} ForwardIsModular(prev: int, n: int, k: nat)
    requires 0 <= prev < n
    ensures Forward(prev, n, k) == (prev + k) % n
  {
    if k > 0 {
      ForwardIsModular(prev, n, k - 1);
      var q := (prev + k - 1) % n;
      assert Forward(prev, n, k) == (q + 1) % n;
      ModSucc(prev + k - 1, n);
    }
  }

  /** `((a % n) + 1) % n == (a + 1) % n`. */
  lemma ModSucc(a: nat, n: int)
    requires n > 0
    ensures (a % n + 1) % n == (a + 1) % n
  {
    var q, r := a / n, a % n;
    assert a == q * n + r && 0 <= r < n;
    if r + 1 == n {
      ModUnique(a + 1, n, q + 1, 0);
      ModUnique(r + 1, n, 1, 0);
    } else {
      ModUnique(a + 1, n, q, r + 1);
      ModUnique(r + 1, n, 0, r + 1);
    }
  }

  /** Pressing next as many times as there are images returns to the starting image. */
  lemma FullCycle(prev: int, n: int)
    requires 0 <= prev < n
    ensures Forward(prev, n, n as nat) == prev
  {
    ForwardIsModular(prev, n, n as nat);
    ModUnique(prev + n, n, 1, prev);
  }

  /** A click on one of the two carousel buttons. */
  datatype Press = Next | Prev

  /** The index after a sequence of clicks, applied in order from `prev`. */
  function Browse(prev: int, n: int, presses: seq<Press>): int
    requires n > 0
    decreases |presses|
  {
    if presses == [] then prev
    else
      var i := if presses[0] == Next then NextImage(prev, n) else PrevImage(prev, n);
      Browse(i, n, presses[1..])
  }

  /** From any image in bounds, every sequence of clicks leaves the index in bounds. */
  lemma {:induction false} BrowseInBounds(prev: int, n: int, presses: seq<Press>)
    requires 0 <= prev < n
    ensures 0 <= Browse(prev, n, presses) < n
    decreases |presses|
  {
    if presses != [] {
      var i := if presses[0] == Next then NextImage(prev, n) else PrevImage(prev, n);
      BrowseInBounds(i, n, presses[1..]);
    }
  }

  /** Starting at 0, the displayed image is always in bounds, whatever the presses. */
  lemma CarouselInBounds(p: Project, presses: seq<Press>)
    requires p in AllProjects
    ensures 0 <= Browse(InitialImage, |p.images|, presses) < |p.images|
  {
    ThreeImagesEach();
    BrowseInBounds(InitialImage, |p.images|, presses);
  }
}
