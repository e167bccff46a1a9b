/**
 * The access e-mail sent after a purchase: a constant subject, an HTML body
 * that greets the buyer by first name, links the magic link from its button
 * and names the full name in its footer, and a plain-text body that carries
 * the same link. The bodies are the template's text with the blank margins
 * that the template trims already removed.
 */
module EmailTemplates {
  import opened JsText

  datatype EmailTemplate = EmailTemplate(subject: string, html: string, text: string)

  const Subject: string := "Seu acesso ao Desafio 7 Dias (Dormir Natural)"

  /** The first name: `nome` up to its first space, or "Olá" when that is empty. */
  function FirstName(nome: string): string {
    var word := Split(nome, ' ')[0];
    if word == "" then "Olá" else word
  }

  /**
   * A name's first space-free word is its first name; a name that is empty
   * or starts with a space is greeted with "Olá".
   */
  lemma FirstNameRule(word: string, rest: string)
    requires forall i :: 0 <= i < |word| ==> word[i] != ' '
    ensures FirstName(word + " " + rest) == (if word == "" then "Olá" else word)
    ensures FirstName(word) == (if word == "" then "Olá" else word)
  {
    SplitWord(word, " " + rest, ' ');
    assert word + " " + rest == word + (" " + rest);
    assert Split(" " + rest, ' ')[0] == [] by {
      assert (" " + rest)[0] == ' ';
    }
    assert word + [] == word;
    SplitWord(word, [], ' ');
    assert word + [] == word;
  }

  function Greeting(firstName: string): string {
    "<h1>Olá, " + firstName + "!</h1>"
  }

  function Button(link: string): string {
    "<a href=\"" + link + "\" class=\"button\">👉 Acessar minha área (clique aqui)</a>"
  }

  function Footer(nome: string): string {
    "<p>Este e-mail foi enviado para " + nome + " porque você adquiriu o Desafio 7 Dias.</p>"
  }

  function TextGreeting(firstName: string): string {
    "Olá, " + firstName + "!"
  }

  function AccessLine(link: string): string {
    "👉 ACESSE SUA ÁREA: " + link
  }

  /** The document up to the title. */
  const HtmlOpen: string :=
    "<!DOCTYPE html>\n" +
    "<html lang=\"pt-BR\">\n" +
    "<head>\n" +
    "  <meta charset=\"utf-8\">\n" +
    "  <meta name=\"viewport\" content=\"width=device-width, initial-scale=1.0\">\n  <title>"

  /** From the end of the title to the greeting: the style sheet and the header. */
  const HtmlStyles: string :=
    "</title>\n  <style>\n" +
    "    body { font-family: -apple-system, BlinkMacSystemFont, 'Segoe UI', Helvetica, Arial, sans-serif; line-height: 1.6; color: #333; max-width: 600px; margin: 0 auto; padding: 20px; }\n" +
    "    .header { text-align: center; margin-bottom: 30px; }\n" +
    "    .logo { font-size: 24px; font-weight: bold; color: #2c5aa0; }\n" +
    "    .button { display: inline-block; padding: 15px 30px; background-color: #2c5aa0; color: white; text-decoration: none; border-radius: 5px; margin: 20px 0; font-weight: bold; }\n" +
    "    .button:hover { background-color: #1e3f73; }\n" +
    "    .benefits { background-color: #f8f9fa; padding: 20px; border-radius: 8px; margin: 20px 0; }\n" +
    "    .benefits ul { margin: 0; padding-left: 20px; }\n" +
    "    .benefits li { margin-bottom: 8px; }\n" +
    "    .footer { margin-top: 30px; padding-top: 20px; border-top: 1px solid #eee; font-size: 14px; color: #666; }\n" +
    "    .warning { background-color: #fff3cd; padding: 15px; border-left: 4px solid #ffc107; margin: 20px 0; border-radius: 4px; }\n" +
    "  </style>\n" +
    "</head>\n" +
    "<body>\n" +
    "  <div class=\"header\">\n" +
    "    <div class=\"logo\">🌙 Dormir Natural</div>\n" +
    "  </div>\n" +
    "  \n  "

  /** From the greeting to the button. */
  const HtmlIntro: string :=
    "\n  \n" +
    "  <p>Obrigado por adquirir o <strong>Desafio 7 Dias — Dormir Natural</strong>.</p>\n" +
    "  \n" +
    "  <div style=\"text-align: center;\">\n    "

  /** From the button to the footer line naming the buyer: the notice, the benefits and the sign-off. */
  const HtmlBenefits: string :=
    "\n  </div>\n" +
    "  \n" +
    "  <div class=\"warning\">\n" +
    "    <strong>⏰ Importante:</strong> Este link é válido por 24 horas e só pode ser usado uma vez.\n" +
    "  </div>\n" +
    "  \n" +
    "  <div class=\"benefits\">\n" +
    "    <h3>🎯 Dentro do programa, você vai encontrar:</h3>\n" +
    "    <ul>\n" +
    "      <li><strong>7 áudios guiados</strong> (5–10 min/noite)</li>\n" +
    "      <li><strong>Checklist diário</strong> para acompanhar seu progresso</li>\n" +
    "      <li><strong>Técnicas naturais anti-ansiedade</strong></li>\n" +
    "      <li><strong>Videoaulas curtas</strong> (opcional)</li>\n" +
    "    </ul>\n" +
    "  </div>\n" +
    "  \n" +
    "  <p>Se precisar de ajuda, basta responder este e-mail.</p>\n" +
    "  \n" +
    "  <p><strong>Bons sonhos! 🌙</strong></p>\n" +
    "  \n" +
    "  <p>Equipe Dormir Natural</p>\n" +
    "  \n" +
    "  <div class=\"footer\">\n    "

  /** The rest of the footer and the closing tags. */
  const HtmlClose: string :=
    "\n    <p>Se você não fez esta compra, entre em contato conosco imediatamente.</p>\n" +
    "  </div>\n" +
    "</body>\n" +
    "</html>"

  /** The plain-text body between the greeting and the access line. */
  const TextIntro: string :=
    "\n\n" +
    "Obrigado por adquirir o Desafio 7 Dias — Dormir Natural.\n" +
    "\n"

  /** The plain-text body after the access line. */
  const TextClose: string :=
    "\n(Válido por 24h - uso único)\n" +
    "\n" +
    "🎯 Dentro do programa, você vai encontrar:\n" +
    "• 7 áudios guiados (5–10 min/noite)\n" +
    "• Checklist diário\n" +
    "• Técnicas naturais anti-ansiedade\n" +
    "• Videoaulas curtas (opcional)\n" +
    "\n" +
    "Se precisar de ajuda, responda este e-mail.\n" +
    "\n" +
    "Bons sonhos! 🌙\n" +
    "Equipe Dormir Natural\n" +
    "\n" +
    "---\n" +
    "Este link é válido por 24 horas e só pode ser usado uma vez."

  /** The fixed text around the inserted parts of the two bodies. */
  datatype Layout = Layout(
    htmlOpen: string, htmlStyles: string, htmlIntro: string, htmlBenefits: string, htmlClose: string,
    textIntro: string, textClose: string)

  const AccessLayout := Layout(HtmlOpen, HtmlStyles, HtmlIntro, HtmlBenefits, HtmlClose, TextIntro, TextClose)

  /** The e-mail laid out by `layout`, with the subject, first name, full name and link filled in. */
  function Render(layout: Layout, nome: string, magicLink: string): EmailTemplate {
    var firstName := FirstName(nome);
    EmailTemplate(
      Subject,
      layout.htmlOpen + (Subject + (layout.htmlStyles + (Greeting(firstName) + (layout.htmlIntro + (Button(magicLink) +
        (layout.htmlBenefits + (Footer(nome) + layout.htmlClose))))))),
      TextGreeting(firstName) + (layout.textIntro + (AccessLine(magicLink) + layout.textClose)))
  }

  /** `getAccessEmailTemplate`. */
  function AccessEmail(nome: string, magicLink: string): EmailTemplate {
    Render(AccessLayout, nome, magicLink)
  }

  /**
   * Whatever the fixed text, the subject never varies; the HTML greets the
   * first name, links the magic link from its button and names the full
   * name in its footer.
   */
  lemma RenderHtml(layout: Layout, nome: string, magicLink: string)
    ensures Render(layout, nome, magicLink).subject == Subject
    ensures IsInfix(Greeting(FirstName(nome)), Render(layout, nome, magicLink).html)
    ensures IsInfix(Button(magicLink), Render(layout, nome, magicLink).html)
    ensures IsInfix(Footer(nome), Render(layout, nome, magicLink).html)
  {
    HtmlParts(layout.htmlOpen, Subject, layout.htmlStyles, Greeting(FirstName(nome)), layout.htmlIntro,
      Button(magicLink), layout.htmlBenefits, Footer(nome), layout.htmlClose);
  }

  /** The plain text opens with the same greeting and carries the same link. */
  lemma RenderText(layout: Layout, nome: string, magicLink: string)
    ensures StartsWith(Render(layout, nome, magicLink).text, TextGreeting(FirstName(nome)))
    ensures IsInfix(AccessLine(magicLink), Render(layout, nome, magicLink).text)
  {
    TextParts(TextGreeting(FirstName(nome)), layout.textIntro, AccessLine(magicLink), layout.textClose);
  }

  /** The three inserted parts of the HTML body occur in it. */
  lemma HtmlParts(a: string, s: string, b: string, p: string, c: string, q: string, d: string, r: string, e: string)
    ensures IsInfix(p, a + (s + (b + (p + (c + (q + (d + (r + e))))))))
    ensures IsInfix(q, a + (s + (b + (p + (c + (q + (d + (r + e))))))))
    ensures IsInfix(r, a + (s + (b + (p + (c + (q + (d + (r + e))))))))
  {
    var h := a + (s + (b + (p + (c + (q + (d + (r + e)))))));
    assert h == (a + s + b) + p + (c + (q + (d + (r + e))));
    InfixOfConcat(a + s + b, p, c + (q + (d + (r + e))));
    assert h == (a + s + b + p + c) + q + (d + (r + e));
    InfixOfConcat(a + s + b + p + c, q, d + (r + e));
    assert h == (a + s + b + p + c + q + d) + r + e;
    InfixOfConcat(a + s + b + p + c + q + d, r, e);
  }

  /** The plain-text body opens with its greeting and holds its access line. */
  lemma TextParts(g: string, i: string, l: string, c: string)
    ensures StartsWith(g + (i + (l + c)), g)
    ensures IsInfix(l, g + (i + (l + c)))
  {
    assert g + (i + (l + c)) == (g + i) + l + c;
    InfixOfConcat(g + i, l, c);
    assert (g + (i + (l + c)))[..|g|] == g;
  }
}
